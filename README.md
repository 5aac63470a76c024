# Reware-Thrift-Commerce storefront rules, in Dafny

This project models the rule-bearing core of the Reware-Thrift-Commerce
storefront, a Next.js shop. It covers:

- **cart pricing**: subtotal, the shipping fee waived above 100.00, 15 % tax, total, all rounded to cents and printed with two decimals;
- **formatting helpers**: `round2`, `formatNumberWithDecimal`, `formatError`, `formatId`, `formatProfileField`, `formatBooleanPreference`, `organizeProfileData`;
- **profile errors**: keyword classification of a profile error, its fixed configuration table, the auto-retry cap and the capped exponential back-off;
- **toast queue**: a shared id counter, append and dismiss;
- **invoice**: the HTML invoice and its download file name;
- **sign-in**: credential checks, default names, moving the anonymous session cart to the user on sign-in, and the token and session callbacks;
- **user interface state**: product list paging, the image carousel, the add-to-cart quantity and button, the featured product filter, navigation highlighting, initials, order status badges and the greeting.

The model follows the source file by file:

- **Pure computations** become functions with contracts. They take values and return values (`Result` or `Option` where the source can fail or return nothing).
- **Components and modules whose state changes step by step** become classes whose methods carry `modifies` clauses:
  - the toast list and its counter;
  - the user and cart tables that the sign-in callback writes to;
  - the product list's visible count;
  - the carousel index;
  - the add-to-cart form.

Money is exact:

- an amount is a whole number of cents, or a `real` where the source rounds;
- `Math.round` is `floor(x + 0.5)`;
- `toFixed(2)` is the decimal text of a cent amount.

Text is `seq<char>`. Letter-case mapping covers ASCII letters only.

| file | module |
|---|---|
| wrappers.dfy | `Wrappers`: `Option`, `Result` |
| js_text.dfy | `JsText`: `includes`, `startsWith`, `split`/`join` on one character, `slice(-k)`, `padEnd`, case mapping, decimal digit strings |
| js_number.dfy | `JsNumber`: `Math.round`, `toFixed(2)`, `toString()` of a cent amount, `Number(text)` for decimal literals |
| cart_actions.dfy | `CartPricing`: `lib/actions/cart.actions.ts` |
| utils.dfy | `Utils`: `lib/utils.ts` |
| profile_errors.dfy | `ProfileErrors`: `app/user/profile/profile-error-utils.ts` |
| toast.dfy | `Toasts`: `hooks/use-toast.ts` |
| invoice.dfy | `Invoice`: `lib/invoice.ts` |
| auth.dfy | `Auth`: `auth.ts` |
| product_list.dfy | `ProductListing`: `components/shared/product/product-list.tsx` |
| product_images.dfy | `ProductImages`: `components/shared/product/product-images.tsx` |
| add_to_cart.dfy | `AddToCartForm`: `components/shared/product/add-to-cart.tsx` |
| products_section.dfy | `ProductsSection`: `components/landing/products-section.tsx` |
| user_navbar.dfy | `UserNavbar`: `components/user/user-navbar.tsx` |
| main_nav.dfy | `MainNav`: `app/user/main-nav.tsx` |
| recent_orders.dfy | `RecentOrders`: `components/user/recent-orders.tsx` |
| welcome_banner.dfy | `WelcomeBanner`: `components/user/welcome-banner.tsx` |

## Model

| member | source | states |
|---|---|---|
| JsNumber.MathRound | lib/utils.ts:48 | `Math.round(x)` is the integer within half a unit of x, with a half rounding up |
| JsNumber.FixedTwo | lib/actions/cart.actions.ts:15-18 | `toFixed(2)` text ends in a point and exactly two digits; a minus sign appears exactly for negative amounts |
| JsNumber.FixedTwoDigits | lib/actions/cart.actions.ts:15-18 | the whole part of `toFixed(2)` spells the absolute amount divided by 100 with no leading zero; the two fraction digits spell its remainder mod 100 |
| JsNumber.ParseFixedTwo | lib/actions/cart.actions.ts:15-18 | the two-decimal text of c cents reads back as exactly c/100 |
| JsNumber.ParseCentsToString | components/shared/product/add-to-cart.tsx:45 | `String(price)` of an amount of c cents reads back as exactly c/100 |
| JsNumber.StringToNumber | components/landing/products-section.tsx:75 | `Number(text)` is 0 for blank text, the exact value of a decimal literal, and NaN exactly when the text is not a decimal literal |
| JsNumber.LeadingPointLiteral | components/landing/products-section.tsx:75 | as in JavaScript, ".5" and "-.5" are numbers (0.5 and -0.5) while a lone "." is NaN |
| JsText.NatToString | hooks/use-toast.ts:23 | the decimal text of n is non-empty, all digits, has no leading zero and denotes n |
| JsText.NatToStringInjective | hooks/use-toast.ts:23 | different counter values give different ids |
| JsText.SliceLast | lib/invoice.ts:36 | `slice(-k)` keeps the last min(k, length) characters, so the text is some prefix followed by the result |
| JsText.JoinSplit | components/user/user-navbar.tsx:60-63 | joining the parts of a one-character split with that character gives the text back |
| JsText.LowerOfUpper | app/user/profile/profile-error-utils.ts:20 | lower-casing an upper-cased text gives the lower-cased original |
| CartPricing.CalcAmounts | lib/actions/cart.actions.ts:6-12 | items is the sum of price × qty; shipping is 0 above 100.00 and 10.00 otherwise; tax is 15 % rounded half-up to the cent; total is items + shipping + tax |
| CartPricing.CalcPrice | lib/actions/cart.actions.ts:14-19 | each of the four prices is the `toFixed(2)` text of its amount from `CalcAmounts`; the rendering facts are stated by `CalcPriceRendering` |
| CartPricing.CalcPriceRendering | lib/actions/cart.actions.ts:14-19 | every price `calcPrice` returns has exactly two fraction digits and reads back as its amount from `CalcAmounts` |
| CartPricing.EmptyCartPrices | lib/actions/cart.actions.ts:7-12 | an empty cart gives 0.00 / 10.00 / 0.00 / 10.00 |
| CartPricing.ShippingBoundary | lib/actions/cart.actions.ts:10 | shipping is free exactly when items exceed 100.00, so 100.00 still pays 10.00 and 100.01 ships free |
| CartPricing.FiftyDollarCart | lib/actions/cart.actions.ts:7-18 | a 50.00 subtotal gives 50.00 / 10.00 / 7.50 / 67.50 |
| CartPricing.ThreeAtTwentyFive | lib/actions/cart.actions.ts:7-18 | three items at 25.00 give 75.00 / 10.00 / 11.25 / 96.25 |
| CartPricing.SeventyFiveCart | lib/actions/cart.actions.ts:7-18 | a 75.00 subtotal gives 75.00 / 10.00 / 11.25 / 96.25 |
| CartPricing.SubtotalAppend | lib/actions/cart.actions.ts:8 | the subtotal of two item lists joined is the sum of their subtotals |
| CartPricing.SubtotalRemove | lib/actions/cart.actions.ts:8 | removing one item takes exactly its line amount off the subtotal |
| CartPricing.SubtotalPermutation | lib/actions/cart.actions.ts:7-9 | the subtotal depends only on the multiset of items, not on their order |
| CartPricing.CalcPriceOrderIndependent | lib/actions/cart.actions.ts:6-19 | reordering the items changes none of the four prices |
| CartPricing.SubtotalNonNegative | lib/actions/cart.actions.ts:8 | non-negative prices and quantities give a non-negative subtotal |
| CartPricing.AmountsNonNegative | lib/actions/cart.actions.ts:7-12 | with non-negative items every amount is non-negative and the total is at least the items price |
| Utils.RoundCents | lib/utils.ts:48 | the cents nearest to x, a half cent rounding up |
| Utils.RoundNumeric | lib/utils.ts:48 | a finite value is rounded to cents; NaN stays NaN |
| Utils.Round2 | lib/utils.ts:46-54 | a number is rounded; a string is converted with `Number` and then rounded; any other value is the "Value is not a number or string" error |
| Utils.RoundCentsOfCents | lib/utils.ts:48 | a whole number of cents is left unchanged |
| Utils.Round2Idempotent | lib/utils.ts:48 | rounding an already rounded number changes nothing |
| Utils.Round2OfFixedTwo | lib/utils.ts:49-50 | a two-decimal string rounds to the amount it spells, the same as its number |
| Utils.FormatNumberWithDecimal | lib/utils.ts:15-18 | the integer part before the point is always kept, followed by a point |
| Utils.FormatWithoutPoint | lib/utils.ts:17 | a text without a fraction gets ".00" |
| Utils.FormatWithPoint | lib/utils.ts:17 | a fraction is padded with "0" up to two digits and never truncated |
| Utils.FormatNumberMatchesFixed | lib/utils.ts:15-18 | for a cent amount, formatting its `toString()` text equals its `toFixed(2)` text |
| Utils.Capitalize | lib/utils.ts:36 | the first character is upper-cased and the rest is unchanged |
| Utils.FormatError | lib/utils.ts:22-43 | a Zod error joins its messages with ". "; P2002 gives the capitalised target field, or "Field", plus " already exists"; any other error gives its message, or its JSON text; a P2002 error whose target is an empty list fails, because `charAt` is called on undefined |
| Utils.TargetField | lib/utils.ts:35 | `meta.target ? target[0] : 'Field'`: "Field" for no target or an empty text, the first character of a text, the first field of a list, and undefined exactly for an empty list |
| Utils.FormatZodError | lib/utils.ts:23-29 | the field messages joined with ". " in order, for every number of messages: none gives "", one is shown alone, more are separated by ". " |
| Utils.FormatDuplicateError | lib/utils.ts:30-36 | the message is the capitalised target field (the first field of a list, the first character of a text, or "Field"), followed by " already exists" |
| Utils.FormatOtherError | lib/utils.ts:37-42 | a text message is returned unchanged; any other message is returned as its JSON text |
| Utils.FormatId | lib/utils.ts:81-83 | ".." followed by the last 6 characters, or the whole id when it is shorter; the length is 2 + min(6, length) |
| Utils.FormatProfileField | lib/utils.ts:169-174 | the fallback for null, undefined or ""; otherwise the value unchanged |
| Utils.FormatProfileFieldStable | lib/utils.ts:169-174 | formatting twice is formatting once; the result is never empty when the fallback is not empty |
| Utils.FormatBooleanPreference | lib/utils.ts:177-187 | "Not set" for a missing value; "Enabled"/"Disabled" in that style; "Yes"/"No" otherwise |
| Utils.BooleanPreferenceRoundTrip | lib/utils.ts:177-187 | the label determines the preference value: reading it back gives the value |
| Utils.Keys | lib/utils.ts:195-199 | the keys of a field list, in order |
| Utils.PersonalSection | lib/utils.ts:204-216 | "Personal Information" with its eight keys in order; every field shows, under its label, its key's attribute through `formatProfileField`, or the date formatter for the date of birth |
| Utils.LocationSection | lib/utils.ts:217-225 | "Location Details" with its four keys in order; every field shows, under its label, its key's attribute through `formatProfileField` |
| Utils.SocialSection | lib/utils.ts:226-235 | "Social Media" with its five keys in order; every field shows, under its label, its key's attribute through `formatProfileField` |
| Utils.ProfessionalSection | lib/utils.ts:236-242 | "Professional" with its two keys in order; every field shows, under its label, its key's attribute through `formatProfileField` |
| Utils.PreferencesSection | lib/utils.ts:243-252 | "Preferences" with its five keys; every field shows, under its label, its key's attribute: the two flags as yes/no preferences, the rest through `formatProfileField` |
| Utils.AccountSection | lib/utils.ts:253-264 | "Account Status" with its seven keys; every field shows, under its label, its key's attribute: the role as text, the two flags as yes/no, Profile Views with the fallback "0", the three instants through the date formatter |
| Utils.OrganizeProfileData | lib/utils.ts:202-268 | six sections in a fixed order with 8, 4, 5, 2, 5 and 7 fields; every field of every section shows, under its label, the attribute its key names, formatted by its kind; Profile Views falls back to "0" |
| ProfileErrors.DetermineProfileErrorType | app/user/profile/profile-error-utils.ts:18-49 | for text, each type holds exactly when its case-insensitive keywords occur and those of every earlier type in the order authentication, network, server, validation do not, and unknown when none occurs; for an Error, network exactly when the name has "network" or the message "fetch", authentication exactly when that fails and the name has "auth" or the message "unauthorized", else unknown; anything else is unknown |
| ProfileErrors.ClassificationIgnoresCase | app/user/profile/profile-error-utils.ts:20 | upper- or lower-casing a message does not change its type |
| ProfileErrors.IncludesLower | app/user/profile/profile-error-utils.ts:20-22 | a lower-case keyword found in a text is still found after lower-casing the text |
| ProfileErrors.Mentions401IsAuthentication | app/user/profile/profile-error-utils.ts:22 | any text containing "401" is an authentication error |
| ProfileErrors.AuthenticationBeforeNetwork | app/user/profile/profile-error-utils.ts:22-27 | "401 network error" is authentication, not network |
| ProfileErrors.NetworkNameBeforeAuth | app/user/profile/profile-error-utils.ts:40-45 | an Error whose name contains "network" is network, whatever its message says |
| ProfileErrors.CreateProfileError | app/user/profile/profile-error-utils.ts:54-94 | the type is the classified type; retryable holds exactly for network, server and unknown; the original message is kept; the texts come from the table |
| ProfileErrors.ShouldAutoRetry | app/user/profile/profile-error-utils.ts:100-109 | true exactly when fewer than 2 retries were made and the error is a retryable network or server error |
| ProfileErrors.AutoRetryOfCreated | app/user/profile/profile-error-utils.ts:100-109 | a created error is retried automatically exactly for network or server errors below the cap |
| ProfileErrors.UnknownNeverAutoRetried | app/user/profile/profile-error-utils.ts:83-88 | an unknown error is marked retryable but never retried automatically |
| ProfileErrors.Pow2Monotone | app/user/profile/profile-error-utils.ts:118 | `Math.pow(2, n)` grows with n |
| ProfileErrors.CappedDelay | app/user/profile/profile-error-utils.ts:115-118 | the base delay is min(1000 · 2^n, 10000), always between 1000 and 10000, and 10000 for every n ≥ 4 |
| ProfileErrors.CappedDelayMonotone | app/user/profile/profile-error-utils.ts:118 | the base delay never shrinks as the retry count grows |
| ProfileErrors.GetRetryDelay | app/user/profile/profile-error-utils.ts:114-124 | with a random draw in [0, 1) the delay lies in [base, 1.3 · base) |
| Toasts.WithoutId | hooks/use-toast.ts:33 | a toast survives the filter exactly when it is in the list and has another id |
| Toasts.WithoutIdAppend | hooks/use-toast.ts:43 | filtering works piecewise, so the remaining toasts keep their relative order |
| Toasts.Dismissed | hooks/use-toast.ts:41-45 | no id or "" empties the list; any other id removes exactly the toasts with that id |
| Toasts.DismissUndoesToast | hooks/use-toast.ts:26-28 | dismissing the toast just appended gives back the previous list |
| Toasts.WithoutIdIncreasing | hooks/use-toast.ts:43 | removing toasts keeps the ids increasing along the list |
| Toasts.ToastList.IdsDistinct | hooks/use-toast.ts:23 | no two toasts in a list share an id |
| Toasts.ToastList.AddToast | hooks/use-toast.ts:22-38 | the shared counter goes up by one; the new id is its decimal text and differs from every existing id; exactly one toast is appended with duration defaulting to 5000; a timer is scheduled exactly when duration > 0 |
| Toasts.ToastList.Dismiss | hooks/use-toast.ts:41-45 | the list becomes the dismissed list, and ids stay increasing |
| Toasts.ToastList.Expire | hooks/use-toast.ts:30-36 | a timer firing removes the toasts with its id, the same as dismissing that id |
| Invoice.InvoiceNumber | lib/invoice.ts:36 | "INV-" followed by the last min(8, length) id characters: the same letters up to case, with no lower-case letter left |
| Invoice.DownloadFileName | lib/invoice.ts:292 | "invoice-" + exactly the last min(8, length) id characters, case kept, + ".html" |
| Invoice.InvoiceNumberMatchesFileName | lib/invoice.ts:292 | with the invoice number of line 36, the invoice number and the file name carry the same 8 characters, up to case |
| Invoice.ShownEmail | lib/invoice.ts:216 | the email line appears exactly when the user has a non-empty email |
| Invoice.ShippingText | lib/invoice.ts:262 | "Free" when the shipping price parses to 0, else the formatted price |
| Invoice.FreeShippingIffZero | lib/invoice.ts:262 | a two-decimal shipping price shows "Free" exactly when it is zero |
| Invoice.Rows | lib/invoice.ts:244-251 | one row per order item, in the same order |
| Invoice.BuildView | lib/invoice.ts:35-262 | invoice number; "Paid"/"paid" exactly when paid, otherwise "Pending"/"pending"; the Paid On line exactly when paid with a date; the email line; one row per item; the shipping text |
| Invoice.RowsHtmlShowsRow | lib/invoice.ts:244-251 | the joined rows contain the HTML of every row |
| Invoice.RowsHtmlAppend | lib/invoice.ts:251 | joining rows works piecewise |
| Invoice.Render | lib/invoice.ts:39-45 | the page opens with the title that names the invoice number |
| Invoice.GenerateInvoiceHtml | lib/invoice.ts:34-283 | the page opens with the title that names the invoice number |
| Invoice.PageShowsEveryItem | lib/invoice.ts:244-251 | every order item's row occurs in the page |
| Invoice.PageShowsEmail | lib/invoice.ts:216 | a present email occurs in the page as its "Email:" line |
| Invoice.BodyShowsTable | lib/invoice.ts:234-253 | whatever the item table contains, the body contains |
| Invoice.BodyShowsBillTo | lib/invoice.ts:209-217 | whatever the Bill To block contains, the body contains |
| Invoice.RenderShowsBody | lib/invoice.ts:201-281 | whatever the body contains, the page contains |
| Invoice.TableShowsRow | lib/invoice.ts:243-252 | the table contains every row |
| Invoice.BillToShowsEmail | lib/invoice.ts:216 | the Bill To block contains the email line |
| Auth.FirstWithEmail | auth.ts:40-42 | the index of the first user with that email, or the list length when there is none |
| Auth.Authorize | auth.ts:27-63 | null for missing or non-text credentials, a blank password, an unknown email, a missing stored password or a mismatch; on success only id, name, email and role of the first user with that email |
| Auth.AuthorizeIff | auth.ts:30-55 | success exactly when the input is well formed, a user with that email exists, that user has a password and it matches |
| Auth.UnknownEmailRefused | auth.ts:44-47 | an email nobody has is refused |
| Auth.DefaultName | auth.ts:86 | the part of the email before the first '@', or "User" when there is no email |
| Auth.DefaultNameOfAddress | auth.ts:86 | for "local@domain" the default name is "local" |
| Auth.FindSessionCart | auth.ts:99-101 | a cart with that session id, or none when no cart has it |
| Auth.WithoutOwner | auth.ts:104-106 | exactly the carts not owned by the user remain |
| Auth.Assigned | auth.ts:108-111 | the cart with that id now belongs to the user; every other cart is unchanged |
| Auth.TransferSessionCart | auth.ts:94-113 | without a cookie or a matching cart, nothing changes |
| Auth.TransferGivesSessionCart | auth.ts:103-111 | after the transfer the user owns the session cart and no other cart, and the carts of other users are untouched |
| Auth.OwnSessionCartIsLost | auth.ts:104-111 | when the session cart already belongs to the user, the delete removes it and the update then fails because the record is gone |
| Auth.Renamed | auth.ts:88-91 | the user with that id gets the new name; every other user is unchanged |
| Auth.TokenAfter | auth.ts:80-121 | sub is kept; a signed-in user sets id and role; NO_NAME gets the default name; an update with a non-empty name in the session's user sets that name |
| Auth.Store.RenameUser | auth.ts:88-91 | the rename succeeds exactly when the user exists, and carts are untouched |
| Auth.Store.DeleteCartsOf | auth.ts:104-106 | the cart table loses exactly the user's carts |
| Auth.Store.AssignCart | auth.ts:108-111 | succeeds exactly when the cart exists, and the user table is untouched |
| Auth.Store.Jwt | auth.ts:80-122 | the returned token is `TokenAfter`; the user table is renamed only for NO_NAME; the cart transfer runs only on sign-in or sign-up; a failed database update is an error; a session sent without a user is a TypeError on every trigger, after the database steps |
| Auth.SessionCallback | auth.ts:69-79 | copies sub, role and name from the token; on "update" the name comes from the user, and is an error when there is no user |
| ProductListing.InitialVisible | components/shared/product/product-list.tsx:19 | `limit || 8`: 8 for a missing or zero limit, else the limit |
| ProductListing.SliceEnd | components/shared/product/product-list.tsx:20 | the number of items `slice(0, end)` keeps, including a negative end |
| ProductListing.ProductList.LimitedData | components/shared/product/product-list.tsx:20 | a prefix of the data, min(visible, length) long for a non-negative count |
| ProductListing.ProductList.HasMoreIffHidden | components/shared/product/product-list.tsx:21 | "Load more" is offered exactly when some items are hidden |
| ProductListing.ProductList.LoadMore | components/shared/product/product-list.tsx:33-35 | the visible count grows by exactly 4; what was shown stays shown, in place |
| ProductListing.ProductList.HeaderOf | components/shared/product/product-list.tsx:39-48 | a header exactly for a non-empty title, carrying that title; "View all" in it exactly when there are more than four items |
| ProductListing.ProductList.Body | components/shared/product/product-list.tsx:51-79 | "No products found" exactly when there is no data; otherwise the grid of shown items, with "Load more" exactly when more remain |
| ProductImages.JsRem | components/shared/product/product-images.tsx:19 | JavaScript `%`: the remainder for a non-negative dividend, never positive for a negative one |
| ProductImages.ArrowsStayInRange | components/shared/product/product-images.tsx:18-24 | from a valid index, "next" steps forward and wraps to 0, "previous" steps back and wraps to n-1, and both stay in [0, n) |
| ProductImages.ArrowsAreInverse | components/shared/product/product-images.tsx:18-24 | previous after next, and next after previous, restore the index |
| ProductImages.ArrowsMoveIffSeveral | components/shared/product/product-images.tsx:50 | the arrows change the image exactly when there is more than one, the condition under which arrows, counter and thumbnails are rendered |
| ProductImages.NextTimes | components/shared/product/product-images.tsx:19 | pressing "next" k times stays in range |
| ProductImages.NextTimesAdvances | components/shared/product/product-images.tsx:19 | k presses of "next" land on (i + k) mod n |
| ProductImages.FullTurn | components/shared/product/product-images.tsx:19 | n presses of "next" come back to the start |
| ProductImages.Carousel.Next | components/shared/product/product-images.tsx:18-20 | the index becomes (i + 1) mod n and stays valid |
| ProductImages.Carousel.Prev | components/shared/product/product-images.tsx:22-24 | the index becomes (i − 1 + n) mod n and stays valid |
| ProductImages.Carousel.SelectThumbnail | components/shared/product/product-images.tsx:86 | clicking thumbnail k sets the index to k |
| ProductImages.Carousel.Counter | components/shared/product/product-images.tsx:74 | the counter shows i + 1 of n, between 1 and n |
| ProductImages.Carousel.MainImageSource | components/shared/product/product-images.tsx:32 | the current image when present and non-empty, otherwise the 600×600 placeholder |
| ProductImages.Carousel.OneHighlight | components/shared/product/product-images.tsx:90-92 | exactly one thumbnail carries the highlight ring |
| ProductImages.ThumbnailSource | components/shared/product/product-images.tsx:96 | the thumbnail when non-empty, otherwise the 150×150 placeholder |
| AddToCartForm.Clamped | components/shared/product/add-to-cart.tsx:32 | `Math.max(1, q + change)` is at least 1, and equals q + change whenever that is at least 1 |
| AddToCartForm.PlusMinusRestores | components/shared/product/add-to-cart.tsx:31-34 | "+" then "−" gives back any quantity ≥ 1; "−" at 1 stays at 1 |
| AddToCartForm.DropSpaces | components/shared/product/add-to-cart.tsx:88 | `parseInt` skips leading white space: the result is a suffix of the text that does not start with white space |
| AddToCartForm.LeadingDigits | components/shared/product/add-to-cart.tsx:88 | the longest run of digits at the start: all digits, a prefix of the text, followed by a non-digit or the end |
| AddToCartForm.UnsignedPart | components/shared/product/add-to-cart.tsx:88 | the text after one optional leading '+' or '-' |
| AddToCartForm.ParseInt | components/shared/product/add-to-cart.tsx:88 | `parseInt` is NaN exactly when no digit follows the white space and the optional sign |
| AddToCartForm.LeadingDigitsThen | components/shared/product/add-to-cart.tsx:88 | digits followed by the end or a non-digit are exactly the leading run `parseInt` reads |
| AddToCartForm.ParseIntOfNat | components/shared/product/add-to-cart.tsx:88 | `parseInt` of a natural number's decimal text, with or without a leading '-', followed by nothing or by a non-digit, is that number (negated after '-'): "2.5" gives 2, "-2.5" gives -2 |
| AddToCartForm.QuantityFromInput | components/shared/product/add-to-cart.tsx:88 | the quantity field's value: at least 1; text without digits, 0 and negative numbers give 1; a positive number is kept |
| AddToCartForm.InputRoundTrip | components/shared/product/add-to-cart.tsx:87-88 | reading back the displayed quantity gives the same quantity |
| AddToCartForm.QuantityOfNumberText | components/shared/product/add-to-cart.tsx:88 | text that starts with n ≥ 1 gives n, whatever non-digit text follows; "0…" and "-n…" give 1 |
| AddToCartForm.DecimalInput | components/shared/product/add-to-cart.tsx:88 | "2.5" becomes 2 |
| AddToCartForm.NegativeDecimalInput | components/shared/product/add-to-cart.tsx:88 | "-2.5" becomes 1 |
| AddToCartForm.ExponentInput | components/shared/product/add-to-cart.tsx:88 | "1e3" becomes 1: no exponent is read |
| AddToCartForm.Payload | components/shared/product/add-to-cart.tsx:41-48 | the item's fields pass through; qty is the current quantity; the price is stringified and reads back as the price |
| AddToCartForm.ButtonLabel | components/shared/product/add-to-cart.tsx:119-133 | "Adding to Cart..." while loading, else "Added to Cart!" once added, else the price text whose amount reads back as price × quantity |
| AddToCartForm.AddToCart.constructor | components/shared/product/add-to-cart.tsx:26-28 | quantity starts at 1 and neither flag is set |
| AddToCartForm.AddToCart.MinusDisabledAtOne | components/shared/product/add-to-cart.tsx:78 | the minus button is disabled exactly at quantity 1, where it would change nothing |
| AddToCartForm.AddToCart.DisabledIffNoPriceLabel | components/shared/product/add-to-cart.tsx:108-133 | the main button is disabled exactly when it shows "Adding to Cart..." or "Added to Cart!" rather than the price |
| AddToCartForm.AddToCart.ChangeQuantity | components/shared/product/add-to-cart.tsx:31-34 | the quantity becomes max(1, q + change) and stays at least 1 |
| AddToCartForm.AddToCart.SetQuantityFromInput | components/shared/product/add-to-cart.tsx:88 | the quantity becomes the input's clamped value and stays at least 1 |
| AddToCartForm.AddToCart.BeginAdd | components/shared/product/add-to-cart.tsx:37-48 | sets the loading flag, which disables the button, and produces the payload for the current quantity |
| AddToCartForm.AddToCart.FinishAdd | components/shared/product/add-to-cart.tsx:50-65 | the loading flag is always cleared; success sets the added flag, appends "Added to cart successfully!" (default) and schedules the reset; failure appends "Failed to add to cart. Please try again." (destructive); the quantity is kept |
| AddToCartForm.AddToCart.AddedAnimationEnds | components/shared/product/add-to-cart.tsx:57 | the scheduled reset clears the added flag only |
| ProductsSection.Featured | components/landing/products-section.tsx:38 | the first min(6, n) products, in order |
| ProductsSection.Filter | components/landing/products-section.tsx:72-76 | a product is kept exactly when its lower-cased name contains the lower-cased query and its price is within the range, both ends included |
| ProductsSection.FilterAppend | components/landing/products-section.tsx:72-77 | the filter works piecewise, so the relative order of products is kept |
| ProductsSection.FilterAllMatch | components/landing/products-section.tsx:72-77 | when every product matches, the list is shown unchanged |
| ProductsSection.Shown | components/landing/products-section.tsx:72-76 | at most 6 cards (the slice of line 38): exactly the featured products that pass the filter |
| ProductsSection.OnlyFirstSixConsidered | components/landing/products-section.tsx:38 | every shown product is one of the first six |
| ProductsSection.EmptyQueryMatchesAll | components/landing/products-section.tsx:74 | with an empty query only the price range filters |
| ProductsSection.SearchIgnoresCase | components/landing/products-section.tsx:74 | upper- or lower-casing the query does not change the result |
| ProductsSection.BoundsInclusive | components/landing/products-section.tsx:75 | a price equal to both bounds passes |
| ProductsSection.CardActionFor | components/landing/products-section.tsx:148-181 | the in-cart controls exactly when the cart count is truthy; otherwise the add button, disabled and labelled "Out of Stock" exactly when stock ≤ 0, else "Add to Cart" |
| ProductsSection.ZeroCountIsNotInCart | components/landing/products-section.tsx:148 | a count of 0 shows the add button |
| ProductsSection.ImageSource | components/landing/products-section.tsx:86 | the first image, or the 400×400 placeholder |
| UserNavbar.UserInitials | components/user/user-navbar.tsx:58-66 | "U" for a missing or empty name; otherwise the upper-cased first characters of the first two non-empty space-separated words, so "  Ada" gives "A" and "Ada  Lovelace" gives "AL" |
| UserNavbar.NonEmpty | components/user/user-navbar.tsx:62-63 | keeps only non-empty words of the list, and every one of them |
| UserNavbar.NonEmptyAppend | components/user/user-navbar.tsx:62-63 | the filter is piecewise over concatenation, so the non-empty words keep their order and repeats |
| UserNavbar.NonEmptyOfOne | components/user/user-navbar.tsx:62-63 | one word is kept exactly when it is not empty |
| UserNavbar.FirstChars | components/user/user-navbar.tsx:62-63 | one character per non-empty word, in order: the i-th is the first character of the i-th non-empty word; empty words contribute nothing |
| UserNavbar.InitialsOfTwoWords | components/user/user-navbar.tsx:60-65 | "first second…" gives the upper-cased first letters of the first two words |
| UserNavbar.InitialsOfOneWord | components/user/user-navbar.tsx:60-65 | a one-word name gives its upper-cased first letter |
| UserNavbar.SpaceOnlyNameHasNoInitials | components/user/user-navbar.tsx:59-65 | the name " " is not empty, yet it gives empty initials |
| UserNavbar.DeeperPathActivates | components/user/user-navbar.tsx:97 | any path below a non-dashboard href activates that link |
| UserNavbar.DashboardOnlyExact | components/user/user-navbar.tsx:97 | "/user" is active only on "/user" itself |
| UserNavbar.AtMostOneActive | components/user/user-navbar.tsx:42-47 | with the test of line 97, for any path, at most one of the four links is active |
| UserNavbar.ToggledTheme | components/user/user-navbar.tsx:127 | "dark" becomes "light"; anything else becomes "dark" |
| UserNavbar.ToggleFlips | components/user/user-navbar.tsx:127 | on "dark" and "light" the toggle flips, and toggling twice comes back |
| MainNav.Tabs | app/user/main-nav.tsx:7-45 | one tab per link in the order Profile, Orders; active exactly when the href occurs in the path; the overlay exactly on active tabs |
| MainNav.ContainingPathActivates | app/user/main-nav.tsx:34 | the href itself, or any path containing it, activates the link |
| MainNav.OrderPageHighlightsOrders | app/user/main-nav.tsx:34 | "/user/orders/abc" highlights Orders and not Profile |
| RecentOrders.StatusOf | components/user/recent-orders.tsx:27-37 | delivered beats paid, and paid beats pending |
| RecentOrders.StatusText | components/user/recent-orders.tsx:33-37 | "Delivered" whenever delivered, "Processing" when paid, else "Pending Payment" |
| RecentOrders.StatusColor | components/user/recent-orders.tsx:27-31 | green when delivered, blue when paid, else yellow |
| RecentOrders.TextAndColorAgree | components/user/recent-orders.tsx:27-37 | text and colour always describe the same status, and different statuses read differently |
| RecentOrders.DeliveredIgnoresPaid | components/user/recent-orders.tsx:27-37 | a delivered order looks the same whether paid or not |
| RecentOrders.Listed | components/user/recent-orders.tsx:61 | the first min(5, n) orders, in order |
| RecentOrders.OrderLabel | components/user/recent-orders.tsx:69 | "Order #" followed by the last 8 id characters |
| RecentOrders.LabelUsesLastEight | components/user/recent-orders.tsx:69 | ids ending in the same 8 characters get the same label |
| RecentOrders.Body | components/user/recent-orders.tsx:51-91 | "No orders yet" exactly when there are no orders; otherwise one row per listed order |
| WelcomeBanner.Greeting | components/user/welcome-banner.tsx:14-18 | "Good morning" exactly before 12, "Good afternoon" exactly from 12 to 16, "Good evening" exactly from 17 |
| WelcomeBanner.GreetingMonotone | components/user/welcome-banner.tsx:14-18 | later hours never go back to an earlier greeting |
| WelcomeBanner.Heading | components/user/welcome-banner.tsx:28 | ", name" is included exactly when a non-empty name is given, then "!" |
| WelcomeBanner.HeadingShape | components/user/welcome-banner.tsx:28 | the heading starts with the greeting and ends with "!" |

## Left out

- Floating point: `Number.EPSILON` in `round2`, binary-float `toFixed`, and the `parseFloat(price) * qty` line totals of the invoice. Amounts are exact cents or reals, and `round2` rounds half-up exactly.
- CartPricing.CalcAmounts: takes each item's price as whole cents rather than as the price string.
- Locale and `Intl` formatting (`formatCurrency`, `formatDateTime`, `formatProfileDate`, `toLocaleDateString`). The invoice takes them as opaque formatter functions; the profile sections take a date formatter.
- `Number(text)` and `parseFloat` are modelled for plain decimal literals only: no exponents, hexadecimal, "Infinity", surrounding white space or a leading "+". `toString()` of a number is modelled for cent amounts below the exponent range.
- AddToCartForm.ParseInt: does not model `parseInt`'s "0x" prefix or Unicode white space; the quantity field only ever holds decimal text.
- Letter-case mapping (`toLowerCase`, `toUpperCase`) covers ASCII letters only. `trim` uses the ASCII white-space set.
- Timers and randomness:
  - The toast auto-dismiss timer is the explicit `Expire`.
  - The add-to-cart reset after 2 s is the explicit `AddedAnimationEnds`.
  - The jitter of `getRetryDelay` is the `random` parameter.
- ProfileErrors.GetRetryDelay: takes the retry count as a natural number; the source is only ever called with counts from 0 upward.
- `logProfileError` (console output) and the retry orchestration of the profile page.
- Database, network and crypto I/O:
  - Prisma is an in-memory user and cart table, with no concurrency.
  - bcrypt is the `matches` predicate passed to `Authorize`.
  - NextAuth's callback plumbing and the `cookies()` call are left out; the session-cart cookie is a parameter.
- `addItemToCart` and the cart stock actions are not part of this model; the add-to-cart form takes the call's outcome as a parameter.
- `downloadInvoice`'s Blob and DOM handling; only the file name is modelled. The invoice's stylesheet and white space are left out, and the page is modelled as the sequence of its content pieces.
- The carousel's zoom dialog (its own 800×800 placeholder), the star ratings, the price text `Number(price).toFixed(2)` of the product cards, animation delays and class names other than the status badge colours.
- The search box of the user navbar keeps its text in local state and drives nothing; it is left out.
- The source file spells the bullet in the "Add to Cart" label as the three characters U+00E2, U+20AC and U+00A2. The model keeps them as written.
