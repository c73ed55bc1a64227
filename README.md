# SKS uniforms storefront — a verified model of its business rules

The storefront is an Express/Mongoose back end (orders, products, users,
newsletter subscribers, contact submissions) with a React client (a shared cart
and wishlist context, the catalogue page, the product grid, the checkout page
and the footer's newsletter strip). This project models the deterministic rules
of both halves in Dafny:

- how an order request is validated, priced and taken from stock;
- the order document's status life cycle, its timeline, and payment and refund handling;
- the product document's stock counters, slug, primary image and reviews;
- the server-side cart and wishlist of a user;
- the subscriber status machine and its counters;
- the contact submission's priority and follow-up rules;
- the field validators, pagination arithmetic and suggestion filters of the routes;
- the client's cart, wishlist, search and mock sign-in;
- the catalogue filter and its in-place sort;
- the product grid's cap;
- the checkout page's own pricing;
- the footer's category toggle.

Two places where the program disagrees with itself are stated as its behaviour, not as modelling choices. The footer's check boxes send upper-case labels such as 'SCHOOLS', while the subscribe route accepts only the lower-case category names (backend/routes/newsletter.js:37-40). So every footer subscription with a ticked box gets a 400, and the page shows "Subscription failed" (Footer.TickedBoxesRefused). The checkout page's shipping and tax differ from the order route's (Checkout.ClientServerShipping).

It also proves what those rules promise. The database is replaced by in-memory
maps and documents. "Now", generated ids and the outcomes of e-mail, SMS and
database writes are parameters.

One module per source file:

| module | file |
|---|---|
| `Basics` | text, number and sequence helpers |
| `Validators` | the phone, pincode and name rules shared by the order and contact routes |
| `OrderModel` | backend/models/Order.js |
| `OrderRoutes` | backend/routes/orders.js |
| `ProductModel` | backend/models/Product.js |
| `ProductRoutes`, `Pagination` | backend/routes/products.js; the pagination arithmetic is also used by orders.js |
| `UserModel` | backend/models/User.js |
| `NewsletterModel` | backend/models/Newsletter.js |
| `NewsletterRoutes` | backend/routes/newsletter.js |
| `ContactModel` | backend/models/Contact.js |
| `ContactRoutes` | backend/routes/contact.js |
| `Storefront` | contexts/AppContext.tsx |
| `Catalog` | pages/Catalog.tsx |
| `ProductGrid` | components/ProductGrid.tsx |
| `Checkout` | pages/Checkout.tsx |
| `Footer` | components/Footer.tsx |

Documents that the source changes in place are classes whose methods state
their whole new state:

- `OrderModel.Order`;
- `ProductModel.ProductDocument`;
- `UserModel.UserAccount`;
- `NewsletterModel.Subscriber`;
- `ContactModel.ContactRecord`.

Mongoose's pre-save hook is a `Save`/`PreSave` method that each mutating method
calls last. `isModified('status')` is modelled by a `persistedStatus` field.
The React state updaters are pure functions on sequences. The catalogue's
`sort` is an insertion sort on the `array` it sorts, which is the shared product
array itself when the category is "All".

Money on the server is whole rupees (`int`). `Math.round(subtotal * 0.18)` is
taken as exact 18% rounded half up. The checkout page's unrounded tax is a
`real`.

## Model

| member | source | states |
|---|---|---|
| Validators.PhoneShape | backend/routes/contact.js:35-38 | an accepted phone number is 1 to 17 characters long, is all digits after an optional leading '+', and contains no '+' after the first character |
| Validators.PhoneFromDigits | backend/routes/contact.js:35-38 | conversely, an optional '+', then a digit 1-9, then at most fifteen more digits is always accepted |
| Validators.PhoneExamples | backend/routes/contact.js:35-38 | "+91 7338031038" is rejected because of its space; "+917338031038" is accepted; a leading 0 and a lone '+' are rejected |
| Validators.PincodeRange | backend/routes/orders.js:76-78 | a pincode is accepted iff it is six digits whose value lies between 100000 and 999999 |
| Validators.PincodeExamples | backend/routes/orders.js:76-78 | six digits with a non-zero first digit are accepted; a leading 0 or five digits are rejected |
| Validators.ContactNameAccepted | backend/routes/contact.js:23-28 | letters, spaces, apostrophes and dots within 2 to 100 characters pass the name rule |
| Validators.DigitRejected | backend/routes/contact.js:23-28 | a digit anywhere in the trimmed name fails the rule |
| Validators.ContactNameHasNoDigit | backend/routes/contact.js:23-28 | no character of an accepted name, once trimmed, is a digit |
| Validators.ContactNameTrimmed | backend/routes/contact.js:23-28 | a name is accepted iff its trimmed form is: the rule judges the trimmed value |
| Validators.PaddedLetterRejected | backend/routes/contact.js:23-28 | a single letter between spaces trims to one character and fails the name rule |
| Validators.DigitsInNameRejected | backend/routes/contact.js:23-28 | a name holding digits fails the name rule |
| OrderModel.FormattedOrderId | backend/models/Order.js:285-287 | the result is "SKS-" followed by the order id, exactly four characters longer |
| OrderModel.TotalItemsAppend | backend/models/Order.js:290-292 | totalItems is additive over concatenated item lists |
| OrderModel.TotalItemsAtLeastLines | backend/models/Order.js:290-292 | when every quantity is at least 1, totalItems is at least the number of lines |
| OrderModel.FullShippingAddressSkipsLandmark | backend/models/Order.js:300-311 | with an empty landmark and every other part present, the shipping address is street, city, state, pincode and country joined by ", ", with no empty slot |
| OrderModel.CancelReturnRules | backend/models/Order.js:433-441 | cancellable iff pending or confirmed; a cancellable order is never returnable; returnability is preserved going back in time |
| OrderModel.ReturnWindowEdges | backend/models/Order.js:437-441 | the return window is exactly 30 days and inclusive; it needs a completion date and the delivered status |
| OrderModel.Order.constructor | backend/routes/orders.js:184-198 | a new order is pending with an empty timeline and a pending, unpaid payment; a missing billing address becomes the shipping address |
| OrderModel.Order.Save | backend/models/Order.js:318-347 | the pre-save hook appends "Order status changed to X" only when the status changed; it stamps the estimated date (now + 10 days) or the actual date (now) once and never overwrites either |
| OrderModel.Order.UpdateStatus | backend/models/Order.js:386-395 | any target status is accepted; the earlier timeline is kept; one entry with the given or default message and actor is appended, plus the hook's second entry when the status really changed |
| OrderModel.Order.AddTrackingUpdate | backend/models/Order.js:397-405 | exactly one tracking update is appended and nothing else changes |
| OrderModel.Order.ProcessPayment | backend/models/Order.js:407-418 | paidAmount grows by the amount and paymentBalance shrinks by it; the payment becomes completed when the balance reaches 0 and otherwise keeps its status; the status, timeline, tracking, refund fields and completion dates are unchanged |
| OrderModel.Order.ProcessRefund | backend/models/Order.js:420-431 | refundAmount grows by the amount; the status becomes refunded when refunds cover the paid amount and partial_refund otherwise; the status, timeline, tracking, paid fields and completion dates are unchanged |
| OrderRoutes.ParsePaymentMethod | backend/routes/orders.js:80-82 | a payment method is accepted exactly when it is cod, online, bank_transfer or cheque |
| OrderRoutes.RejectedBeforeLookup | backend/routes/orders.js:23-83 | an empty item list, any quantity below 1, a bad pincode or an unknown payment method each fails validation |
| OrderRoutes.Sanitize | backend/routes/orders.js:23-83 | the trim sanitizers rewrite each line field by field and keep the number of lines |
| OrderRoutes.SanitizeLines | backend/routes/orders.js:28-46 | every line is sanitized in place, in order, and no line is added or lost |
| OrderRoutes.Snapshot | backend/routes/orders.js:110-113 | the catalogue view has exactly the stored product ids |
| OrderRoutes.CheckLinesFirstFailure | backend/routes/orders.js:107-156 | the lines fail iff some line fails, and the error is that of the first failing line; on success there is one item per line and each comes from its own line |
| OrderRoutes.CheckLinesErrorSticks | backend/routes/orders.js:107-156 | an error found on a prefix of the lines is the result for all of them |
| OrderRoutes.CheckLinesKnownProducts | backend/routes/orders.js:110-140 | every checked item names a product of the catalogue |
| OrderRoutes.Tax | backend/routes/orders.js:158 | the tax is 18% of the subtotal rounded to the nearest rupee, with halves rounded up |
| OrderRoutes.PricingOf | backend/routes/orders.js:158-161 | the total is subtotal plus tax plus shipping, with no discount |
| OrderRoutes.PricingExamples | backend/routes/orders.js:158-161 | 1000 is priced 180/100/1280; 2000 is priced 360/0/2360; 1999 still pays shipping |
| OrderRoutes.PricingBounds | backend/routes/orders.js:158-161 | the tax is non-negative; the total is at least 118% of the subtotal less rounding; shipping is free iff the subtotal is at least 2000 |
| OrderRoutes.ApplyItems | backend/routes/orders.js:201-206 | the stock loop keeps the set of products |
| OrderRoutes.ApplyItemsNonNegative | backend/routes/orders.js:201-206 | starting from non-negative counters, no stock counter goes negative |
| OrderRoutes.SameSizeTwiceBothPass | backend/routes/orders.js:111-134 | two lines for the same product and size, each within stock but together over it, both pass the check |
| OrderRoutes.SameSizeTwiceBothTaken | backend/routes/orders.js:201-206 | both such lines are then taken: the second decrement is clamped at 0 and the sales counter counts both |
| OrderRoutes.CheckAndPrice | backend/routes/orders.js:107-156 | the checking loop returns what the line-by-line specification does, and its running subtotal is the sum of price times quantity |
| OrderRoutes.CheckLinesStep | backend/routes/orders.js:107-156 | a line that passes extends the checked items by its item and the subtotal by its price times quantity |
| OrderRoutes.CheckLinesFailAt | backend/routes/orders.js:107-156 | the first failing line's error is the error of the whole list |
| OrderRoutes.CheckOne | backend/routes/orders.js:110-140 | one pass of the loop agrees with the specification of one line |
| OrderRoutes.TakeStock | backend/routes/orders.js:201-206 | the stock loop leaves the stored products exactly as the specification of the stock updates says, and keeps them valid |
| OrderRoutes.TakeItem | backend/routes/orders.js:202-205 | one pass changes only the item's product, as the specification of one item says |
| OrderRoutes.TakeOne | backend/routes/orders.js:204-205 | updateStock then incrementSales on one product matches the one-item specification |
| OrderRoutes.PlaceOrderAsWritten | backend/routes/orders.js:86-239 | as written: a rejected request or line answers 400 and changes no product and no user; every request past the checks answers 500, with the customer created and no stock taken |
| OrderRoutes.UnsetOrderIdRejected | backend/routes/orders.js:179-199 | the document passed to `Order.create` fails validation without an `orderId` and passes with a generated one |
| OrderRoutes.PlaceOrder | backend/routes/orders.js:86-239 | as intended, with the generated id on the created document: a rejected request or line answers 400 and changes no product and no user; past the checks the customer exists afterwards; a document that fails validation (an item without an image) answers 500 with stock untouched; otherwise a fresh pending order with the checked items, the computed pricing, a pending payment and a defaulted billing address is created, and the stock loop is applied |
| OrderRoutes.Fulfil | backend/routes/orders.js:164-206 | what happens after the checks: the user is found or created; a document without an `orderId` or without every image answers 500 and takes no stock; otherwise the order is created and the stock is taken |
| OrderRoutes.FindOrCreateUser | backend/routes/orders.js:164-180 | the customer exists afterwards; a user is created iff the e-mail was unknown |
| OrderRoutes.ValidateRequest | backend/routes/orders.js:86-156 | validation followed by the checking loop on the sanitized lines agrees with the specification, subtotal included |
| OrderRoutes.AddTracking | backend/routes/orders.js:463-545 | a blank carrier or number is 400 and an unknown order 404, both with no change; otherwise tracking is set and an order not yet shipped or delivered (cancelled and returned included) becomes shipped with the two expected timeline entries; the payment and both completion dates are kept |
| ProductModel.EffectivePrice | backend/models/Product.js:234-236 | the discounted price when present and non-zero, the base price otherwise |
| ProductModel.TotalStockNonNegative | backend/models/Product.js:245-248 | with non-negative counters the total stock is non-negative, and it is 0 iff every size is out of stock |
| ProductModel.AvailabilityBands | backend/models/Product.js:256-261 | out of stock iff the total is 0, low stock iff it is 1 to 5, in stock iff it is above 5 |
| ProductModel.PrimaryImage | backend/models/Product.js:250-254 | none iff there are no images; otherwise the first image marked primary if any is marked, else the first image |
| ProductModel.CollapseRuns | backend/models/Product.js:267-269 | empty iff the input is empty; it ends in '-' iff the input ends outside [a-z0-9] |
| ProductModel.CollapseRunsShape | backend/models/Product.js:267-269 | after collapsing, only [a-z0-9] and '-' remain and no two '-' are adjacent |
| ProductModel.StripDashesShape | backend/models/Product.js:270 | stripping the outer '-' of a collapsed string gives the slug shape |
| ProductModel.SlugifyIsSlug | backend/models/Product.js:266-271 | every generated slug is lower-case [a-z0-9] words separated by single '-', with none at either end |
| ProductModel.CollapseRunsFixed | backend/models/Product.js:267-269 | collapsing an already collapsed string changes nothing |
| ProductModel.LowerOfSlugChars | backend/models/Product.js:267 | lower-casing slug characters changes nothing |
| ProductModel.SlugifyIdempotent | backend/models/Product.js:266-271 | generating a slug from a slug gives it back |
| ProductModel.SlugExample | backend/models/Product.js:266-271 | "Polo" becomes "polo", and "T-Shirt (XL)" becomes "t-shirt-xl": the inner '-' and the run " (" each become one '-', and the trailing '-' left by ")" is stripped |
| ProductModel.CollapseWord | backend/models/Product.js:268-270 | a run of [a-z0-9] characters is copied through unchanged |
| ProductModel.CollapseGap | backend/models/Product.js:268-270 | a non-empty run of characters outside [a-z0-9] after a slug character becomes exactly one '-' |
| ProductModel.FindEntry | backend/models/Product.js:408-416 | the index of the first entry with the name, or none when no entry has it |
| ProductModel.DecrementFirstEffect | backend/models/Product.js:407-419 | only the first matching entry changes, names are kept, its stock becomes max(0, stock - quantity), and a missing name changes nothing |
| ProductModel.DecrementFirstNonNegative | backend/models/Product.js:407-419 | the clamp keeps every counter non-negative |
| ProductModel.DecrementFirstExact | backend/models/Product.js:407-419 | when the stock covers the quantity, the decrement is exact |
| ProductModel.WithoutUser | backend/models/Product.js:381 | the reviews kept are exactly those of other users |
| ProductModel.RatingSumBounds | backend/models/Product.js:390-392 | with ratings 1 to 5, the sum lies between the count and five times the count |
| ProductModel.MeanRatingBounds | backend/models/Product.js:390-392 | with ratings 1 to 5, the mean lies between 1 and 5 |
| ProductModel.ReplaceReviewKeepsUnique | backend/models/Product.js:380-395 | dropping the user's review and appending the new one keeps one review per user |
| ProductModel.WithoutUserUnique | backend/models/Product.js:381 | removing a user's reviews keeps one review per user |
| ProductModel.ProductDocument.constructor | backend/models/Product.js:264-280 | a new product is active, with no reviews and zero counters; its slug is generated from the name; its images are the given ones, with the first marked primary when none was; after the first save it is valid |
| ProductModel.ProductDocument.PreSave | backend/models/Product.js:264-280 | a slug is generated only when none is set; the first image becomes primary only when no image is; nothing else changes |
| ProductModel.ProductDocument.UpdateStock | backend/models/Product.js:407-419 | sizes and colours each lose the quantity at their first match (clamped); everything else is unchanged |
| ProductModel.ProductDocument.AddReview | backend/models/Product.js:380-395 | the user's earlier review is dropped and the new one appended; the count is the number of reviews and the average their mean, between 1 and 5 when ratings are |
| ProductModel.ProductDocument.IncrementView | backend/models/Product.js:397-400 | viewCount grows by 1 and every other field, the rating average and count included, is kept |
| ProductModel.ProductDocument.IncrementSales | backend/models/Product.js:402-405 | salesCount grows by the quantity (default 1) and every other field, the rating average and count included, is kept |
| Pagination.TotalPages | backend/routes/products.js:99 | the page count is the ceiling of total over limit |
| Pagination.CeilBounds | backend/routes/products.js:99 | the ceiling-division formula lies between total/limit and one more |
| Pagination.PagesCoverRecords | backend/routes/products.js:99 | page k (counting from 0) is before the last page iff records start before k * limit |
| Pagination.NextPageMeansMoreRecords | backend/routes/products.js:68-111 | hasNextPage iff records remain after this page; the page exists iff skip is below the total |
| Pagination.PrevPageRule | backend/routes/products.js:68-111 | hasPrevPage iff skip is positive |
| Pagination.PaginationExample | backend/routes/orders.js:337-370 | 41 orders at 20 a page are three pages, and the third skips 40 and has no next page |
| ProductRoutes.PageOf | backend/routes/products.js:68-111 | the page info's next and previous flags and its page count agree with the records that exist |
| ProductRoutes.ListPage | backend/routes/products.js:8-65 | the parameters are accepted iff the category and sort option are known ones, a search trims to 1 to 100 characters, the prices are not negative, page is at least 1 and limit is 1 to 50; page and limit default to 1 and 20 |
| ProductRoutes.ListFilterRejections | backend/routes/products.js:8-52 | an unknown category, a blank search, a negative minimum or maximum price or an unknown sort option each answer 400 |
| ProductRoutes.CategoryPage | backend/routes/products.js:212-261 | accepted iff the category is one of the six and the parameters are valid; it then paginates like the list route |
| ProductRoutes.FeaturedLimit | backend/routes/products.js:134-151 | a limit outside 1 to 20 is refused; an absent limit is 10; an accepted limit is used as given |
| ProductRoutes.PageExamples | backend/routes/products.js:35-111 | worked pages, the rejected page 0 and limit 51, and an unknown category |
| ProductRoutes.SuggestionQuery | backend/routes/products.js:337-341 | the query is accepted iff it trims to 1 to 50 characters, and the trimmed query is used |
| ProductRoutes.Matching | backend/routes/products.js:364-365 | keeps exactly the entries that contain the query, ignoring case |
| ProductRoutes.CategorySuggestions | backend/routes/products.js:364-365 | the suggested categories are exactly the listed ones that contain the query, ignoring case |
| ProductRoutes.MatchingIsSubsequence | backend/routes/products.js:364-365 | the suggestions keep list order |
| ProductRoutes.MenSuggestsWomen | backend/routes/products.js:364-365 | the query "Men" suggests both "men" and "women" |
| ProductRoutes.FirstIndex | backend/routes/products.js:375-378 | the position of the first occurrence |
| ProductRoutes.Dedupe | backend/routes/products.js:375-378 | a Set keeps exactly the values that occur |
| ProductRoutes.DedupeOrder | backend/routes/products.js:375-378 | a Set keeps first-occurrence order |
| ProductRoutes.OrderedIsDistinct | backend/routes/products.js:375-378 | a list in first-occurrence order has no duplicates |
| ProductRoutes.MatchingKeepsOrder | backend/routes/products.js:375-378 | filtering keeps the relative order of first occurrences |
| ProductRoutes.TagSuggestions | backend/routes/products.js:375-378 | at most five tags, each from the products and containing the query |
| ProductRoutes.TagSuggestionsSpec | backend/routes/products.js:375-378 | the tags are distinct and in first-occurrence order; all matching tags are listed when fewer than five are; a matching tag left out comes after all five listed ones |
| ProductRoutes.TagSuggestionsOrdered | backend/routes/products.js:375-378 | the suggested tags come in order of first appearance |
| ProductRoutes.TagSuggestionsCutOff | backend/routes/products.js:375-378 | a matching tag left out was cut off by five tags that appear before it |
| UserModel.FullAddressShape | backend/models/User.js:120-127 | the address is empty iff the street is empty; otherwise it starts with the street |
| UserModel.FullAddressExample | backend/models/User.js:120-127 | worked addresses: no street gives ''; empty middle parts are skipped |
| UserModel.FindLine | backend/models/User.js:178-180 | the index of the first line with the same product, size and colour, or none |
| UserModel.CartAddEffect | backend/models/User.js:177-191 | a cart with distinct triples keeps them distinct; the triple's quantity grows by the amount; every other triple's quantity is unchanged |
| UserModel.FindLineSameKeys | backend/models/User.js:178-190 | changing quantities or appending keeps where each triple is found |
| UserModel.CartRemove | backend/models/User.js:193-198 | removal never lengthens the cart |
| UserModel.CartRemoveKeeps | backend/models/User.js:193-198 | exactly the matching lines go; a cart without the triple is unchanged; distinct triples stay distinct |
| UserModel.CartRemoveMembers | backend/models/User.js:193-198 | a line is kept exactly when it does not match the triple |
| UserModel.CartRemoveAbsent | backend/models/User.js:193-198 | a cart without the triple is left as it is |
| UserModel.CartRemoveUnique | backend/models/User.js:193-198 | a cart with distinct triples keeps them distinct |
| UserModel.WishlistRemove | backend/models/User.js:213-216 | exactly the entries for the product go |
| UserModel.WishlistRemoveUnique | backend/models/User.js:213-216 | a duplicate-free wishlist stays duplicate free |
| UserModel.UserAccount.constructor | backend/models/User.js:5-118 | a new account has an empty cart and wishlist |
| UserModel.UserAccount.AddToCart | backend/models/User.js:177-191 | the triple's quantity grows by the amount (default 1); the save succeeds iff every quantity is valid; the wishlist is unchanged |
| UserModel.UserAccount.RemoveFromCart | backend/models/User.js:193-198 | exactly the lines of that triple are removed; the wishlist is unchanged |
| UserModel.UserAccount.ClearCart | backend/models/User.js:200-203 | the cart is empty and the wishlist unchanged |
| UserModel.UserAccount.AddToWishlist | backend/models/User.js:206-211 | the product is in the wishlist afterwards; adding it again changes nothing; otherwise one entry is appended |
| UserModel.UserAccount.RemoveFromWishlist | backend/models/User.js:213-216 | the product is no longer in the wishlist and every other entry stays |
| NewsletterModel.ApplyPatch | backend/models/Newsletter.js:295-298 | each supplied key is overwritten and each absent key kept |
| NewsletterModel.ApplyPatchLaws | backend/models/Newsletter.js:295-298 | applying a patch twice is the same as once; an empty patch changes nothing |
| NewsletterModel.Rate | backend/models/Newsletter.js:137-147 | 0 when nothing was sent, else the percentage rounded half up |
| NewsletterModel.RateBounds | backend/models/Newsletter.js:137-147 | a rate lies between 0 and 100 and is 100 when every e-mail counted |
| NewsletterModel.Recency | backend/models/Newsletter.js:163-164 | the recency score is never negative and at most 100 for a past send |
| NewsletterModel.Score | backend/models/Newsletter.js:160-169 | the engagement score lies between 0 and 100 |
| NewsletterModel.WithoutTag | backend/models/Newsletter.js:290-293 | exactly the other tags are kept |
| NewsletterModel.Subscriber.constructor | backend/routes/newsletter.js:84-94 | a new subscriber is active with the given categories and preferences and zeroed counters |
| NewsletterModel.Subscriber.Save | backend/models/Newsletter.js:158-178 | the score is recomputed only when e-mails were sent; an unsubscription date is stamped only on a change to unsubscribed without one |
| NewsletterModel.Subscriber.Unsubscribe | backend/models/Newsletter.js:234-241 | unsubscribed and stamped now; a reason tag is appended only for a given reason; the score is recomputed when e-mails were sent and every other field is kept |
| NewsletterModel.Subscriber.Resubscribe | backend/models/Newsletter.js:243-247 | active again and the unsubscription date cleared; the score is recomputed when e-mails were sent and every other field is kept |
| NewsletterModel.Subscriber.RecordEmailSent | backend/models/Newsletter.js:249-253 | one more e-mail sent and the send stamped now; the score is recomputed when e-mails were sent and every other field is kept |
| NewsletterModel.Subscriber.RecordEmailOpened | backend/models/Newsletter.js:255-260 | one more open and one more interaction, with the activity stamped now; the score is recomputed when e-mails were sent and every other field is kept |
| NewsletterModel.Subscriber.RecordEmailClicked | backend/models/Newsletter.js:262-267 | one more click and two more interactions, with the activity stamped now; the score is recomputed when e-mails were sent and every other field is kept |
| NewsletterModel.Subscriber.RecordBounce | backend/models/Newsletter.js:269-275 | one more bounce; the status becomes bounced once there are 3 and is kept before; the score is recomputed when e-mails were sent and every other field is kept |
| NewsletterModel.Subscriber.RecordComplaint | backend/models/Newsletter.js:277-281 | one more complaint, and the status becomes complained unconditionally; the score is recomputed when e-mails were sent and every other field is kept |
| NewsletterModel.Subscriber.AddTag | backend/models/Newsletter.js:283-288 | the lower-cased tag is present afterwards and is never added twice; the score is recomputed when e-mails were sent and every other field is kept |
| NewsletterModel.Subscriber.RemoveTag | backend/models/Newsletter.js:290-293 | every copy of the lower-cased tag goes and the other tags stay in order; the score is recomputed when e-mails were sent and every other field is kept |
| NewsletterModel.Subscriber.UpdatePreferences | backend/models/Newsletter.js:295-298 | the preferences become the patched ones; the score is recomputed when e-mails were sent and every other field is kept |
| NewsletterRoutes.CategoryExamples | backend/routes/newsletter.js:37-40 | lower-case names pass and "SCHOOLS" fails |
| NewsletterRoutes.Subscribe | backend/routes/newsletter.js:44-124 | 400 with nothing changed iff the input is invalid or the record is active; otherwise an existing record is reactivated (every other field kept) or a new one created with the defaults, no other record changes, and the answer is 200 if the confirmation e-mail went out and 500 if it failed after the write |
| NewsletterRoutes.Reactivate | backend/routes/newsletter.js:72-81 | active, categories replaced, preferences merged with the new values winning, subscribed now, unsubscription date cleared; the score is recomputed when e-mails were sent and every other field is kept |
| NewsletterRoutes.ReactivateStored | backend/routes/newsletter.js:66-81 | the record under the address is reactivated, field for field as Reactivate states it; the store stays valid and no other record changes |
| NewsletterRoutes.InitialRecord | backend/routes/newsletter.js:84-99 | the record `Newsletter.create` stores is active with zeroed counters and score and no tags, and the save hook's score recomputation leaves it as it is |
| NewsletterRoutes.AddSubscriber | backend/routes/newsletter.js:82-99 | a fresh active record with the default preferences under the new ones is stored under the new address, with the fields of InitialRecord: zeroed counters and score, no tags, no dates but the subscription date; the other records stay |
| NewsletterRoutes.Unsubscribe | backend/routes/newsletter.js:126-186 | 404 for an unknown e-mail and 400 if already unsubscribed; any other status becomes unsubscribed, with the date stamped and the reason tag appended when a reason is given; every other field is kept and the score recomputed when e-mails were sent; no other record changes |
| NewsletterRoutes.UpdatePreferences | backend/routes/newsletter.js:189-282 | bad categories are 400 and an unknown e-mail 404; only an active record is updated, categories only when given and preferences patched only when given; every other field is kept and the score recomputed when e-mails were sent |
| NewsletterRoutes.BandsAgreeWithLevel | backend/routes/newsletter.js:402-417 | the four filter bands partition the scores, and each selects exactly the scores of its engagement level |
| NewsletterRoutes.GrowthRate | backend/routes/newsletter.js:502-503 | 0 after an empty period, else the percentage change rounded half up |
| NewsletterRoutes.GrowthRateSign | backend/routes/newsletter.js:502-503 | growth follows the sign of the change and never falls below -100 |
| NewsletterRoutes.GrowthRateExamples | backend/routes/newsletter.js:502-503 | 15 after 10 is 50, 5 after 10 is -50, and anything after 0 is 0 |
| ContactModel.HookPriority | backend/models/Contact.js:143-149 | quote, enquiry and consultation force high; samples forces medium; general keeps the priority |
| ContactModel.HookPriorityLaws | backend/models/Contact.js:141-158 | the hook's priority is idempotent, and for non-general types independent of the earlier priority |
| ContactModel.FollowUpHours | backend/models/Contact.js:152-155 | 24 hours iff the priority is high or urgent, 48 otherwise |
| ContactModel.ParseInquiryType | backend/models/Contact.js:40-45 | accepted iff one of the five inquiry types |
| ContactModel.ParseStatus | backend/models/Contact.js:68-72 | accepted iff one of the four statuses |
| ContactModel.ContactRecord.constructor | backend/models/Contact.js:40-113 | a new record is pending, medium priority, unread, without notes or follow-up date |
| ContactModel.ContactRecord.Save | backend/models/Contact.js:141-158 | the priority is set by the inquiry type on every save; the follow-up date is set once and kept |
| ContactModel.ContactRecord.MarkAsRead | backend/models/Contact.js:174-177 | only isRead changes: name, e-mail, phone, message, type, status, notes, priority and follow-up date are kept |
| ContactModel.ContactRecord.UpdateStatus | backend/models/Contact.js:179-183 | the status is set; notes are replaced only when given; name, e-mail, phone, message, type, priority, follow-up date and isRead are kept |
| ContactModel.CreateAndSave | backend/models/Contact.js:141-158 | a saved new record holds the given name, e-mail, phone, message and type, is pending and unread, and has its type's priority and a follow-up 24 or 48 hours ahead |
| ContactRoutes.FormInquiryType | backend/routes/contact.js:56-58 | the form accepts exactly general, quote and samples, each a valid stored type |
| ContactRoutes.ContactFormExamples | backend/routes/contact.js:51-58 | enquiry and consultation types and a short message each fail the form |
| ContactRoutes.HandleContactForm | backend/routes/contact.js:62-172 | invalid iff the form fails validation; otherwise success whatever the save, e-mail and SMS outcomes; a record with the trimmed fields exists iff the database is ready; it is saved with the hook's priority and a follow-up date iff the save succeeds, and otherwise keeps the defaults of `new Contact`; emailSent iff the send returned success; smsSent iff some SMS succeeded |
| ContactRoutes.ItemLineShape | backend/routes/contact.js:370-376 | each item line starts "• name" and shows only the parts that are present |
| ContactRoutes.ItemLines | backend/routes/contact.js:370-376 | one line per item, in order |
| ContactRoutes.ItemListAppend | backend/routes/contact.js:370-377 | one more item adds one more line after a newline |
| ContactRoutes.EnquiryTextShape | backend/routes/contact.js:370-380 | the text starts with the item lines and ends with the message, or the fallback text for an empty one |
| ContactRoutes.ItemLineExample | backend/routes/contact.js:370-376 | worked item lines with and without size, quantity and notes |
| ContactRoutes.FallbackUnreachable | backend/routes/contact.js:338-380 | validation requires a message, so the fallback text never appears after validation |
| ContactRoutes.HandleEnquiry | backend/routes/contact.js:337-448 | the route with the enquiry SMS notification it evidently intends, whose outcome is a parameter: invalid iff validation fails; a 500 iff a send fails after validation, even with the record saved; otherwise success with the item count; a record with the enquiry text exists iff the database is ready, saved with high priority iff the save succeeds and otherwise left with the default priority and no follow-up date |
| ContactRoutes.HandleEnquiryAsWritten | backend/routes/contact.js:383-446 | as written, the SMS call names a method the SMS service does not define, so it throws: every valid enquiry answers 500, after the record was built and, when the save succeeds, stored with high priority |
| ContactRoutes.ValidEnquiryWitness | backend/routes/contact.js:337-356 | a name of 2..100 and a message of 1..2000 characters with no surrounding white space, an accepted phone and one item pass every validator, so that 500 is reached by ordinary requests |
| Storefront.Bump | contexts/AppContext.tsx:517-529 | the matching line gains one unit and the others are unchanged |
| Storefront.BumpCount | contexts/AppContext.tsx:517-556 | the cart count grows by the number of matching lines |
| Storefront.MatchCountUnique | contexts/AppContext.tsx:517-529 | with distinct (id, size) keys at most one line matches |
| Storefront.CartAddEffect | contexts/AppContext.tsx:517-529 | adding keeps keys distinct, adds exactly one unit, and the line exists afterwards; the cart grows iff the line was absent |
| Storefront.ReorderCount | contexts/AppContext.tsx:730-735 | reordering adds one unit per previous line, whatever its quantity |
| Storefront.CartRemove | contexts/AppContext.tsx:531-533 | every line with that id goes, whatever its size |
| Storefront.CartRemoveShape | contexts/AppContext.tsx:531-533 | removal keeps the order and keeps keys distinct |
| Storefront.SetQuantity | contexts/AppContext.tsx:535-545 | every line with that id takes the quantity and the others are unchanged |
| Storefront.UpdateQuantityEffect | contexts/AppContext.tsx:535-545 | a quantity of 0 or less removes the id; otherwise every size of the id gets the quantity |
| Storefront.ClearCart | contexts/AppContext.tsx:547-549 | the cart is empty with count 0 |
| Storefront.ParsePriceFormatted | contexts/AppContext.tsx:551-555 | "₹" then digits, one comma, then digits parses to the number without the comma |
| Storefront.ParsePriceTypical | contexts/AppContext.tsx:551-555 | "₹2,500" parses to 2500 |
| Storefront.ParsePriceLakh | contexts/AppContext.tsx:551-555 | "₹1,00,000" parses to 100, since only the first comma is removed |
| Storefront.ParsePriceTwoCommas | contexts/AppContext.tsx:551-555 | with two commas, parsing stops at the second |
| Storefront.CartTotalDefined | contexts/AppContext.tsx:551-555 | the total is a number iff every price parses, and non-negative for non-negative quantities |
| Storefront.WishlistRemove | contexts/AppContext.tsx:568-570 | exactly the other products stay |
| Storefront.WishlistLaws | contexts/AppContext.tsx:559-574 | after an add the product is in the wishlist, after a remove it is not, others are unaffected; add is idempotent and keeps ids distinct |
| Storefront.WishlistAddLaws | contexts/AppContext.tsx:559-566 | after an add the product is in the wishlist, others are unaffected, a second add changes nothing, ids stay distinct |
| Storefront.WishlistRemoveLaws | contexts/AppContext.tsx:568-570 | after a remove the product is gone and every other product's presence is unchanged |
| Storefront.Login | contexts/AppContext.tsx:577-593 | succeeds iff email and password are non-empty; a failure keeps the session |
| Storefront.LoginName | contexts/AppContext.tsx:577-593 | the signed-in name is the part of the e-mail before '@' |
| Storefront.Register | contexts/AppContext.tsx:595-611 | succeeds iff name, email and password are all non-empty |
| Storefront.Logout | contexts/AppContext.tsx:613-615 | no user afterwards |
| Storefront.SearchFilter | contexts/AppContext.tsx:618-631 | keeps exactly the products whose name, description or category contains the query, ignoring case |
| Storefront.PerformSearchResult | contexts/AppContext.tsx:618-631 | a blank query finds nothing; otherwise exactly the matching products, in catalogue order |
| Storefront.FilterIsSubsequence | contexts/AppContext.tsx:618-631 | search keeps catalogue order |
| Catalog.ParseSortOrder | pages/Catalog.tsx:31-41 | price-low and price-high select the price orders; anything else sorts by name |
| Catalog.FilterCategory | pages/Catalog.tsx:23-29 | keeps exactly the products the category predicate keeps |
| Catalog.FilterCategoryLaws | pages/Catalog.tsx:23-29 | "All" keeps everything; a unisex accessory is in neither Men nor Women |
| Catalog.FilterCategoryIsSubsequence | pages/Catalog.tsx:23-29 | filtering keeps catalogue order |
| Catalog.NameLeqTotal | pages/Catalog.tsx:38-39 | the name order is total |
| Catalog.NameLeqTrans | pages/Catalog.tsx:38-39 | the name order is transitive |
| Catalog.InOrderLaws | pages/Catalog.tsx:31-41 | each of the three orders is total and transitive |
| Catalog.SortedPairwise | pages/Catalog.tsx:31-41 | adjacent order implies order between any two positions |
| Catalog.SortInPlace | pages/Catalog.tsx:31-41 | the array ends sorted and is a permutation of what it held |
| Catalog.Insert | pages/Catalog.tsx:31-41 | one insertion step extends the sorted prefix by one and permutes the array |
| Catalog.FilteredAndSorted | pages/Catalog.tsx:21-42 | the result is sorted and a permutation of the filtered products; for "All" it is the shared array itself, which is reordered; otherwise it is fresh and the shared array is unchanged |
| Catalog.SampleIds | pages/Catalog.tsx:66 | the ids of the first five products shown, or of all when fewer |
| ProductGrid.DisplayProducts | components/ProductGrid.tsx:89-103 | at most eight products: the first eight of the filter's source |
| ProductGrid.DisplayLaws | components/ProductGrid.tsx:89-103 | MEN'S and WOMEN'S show only catalogue products that the catalogue's Men or Women predicate keeps; ACCESSORIES shows only accessories; all three keep catalogue order; any other filter shows the first eight of the products passed in |
| Checkout.ClientShipping | pages/Checkout.tsx:108 | free iff the cart total exceeds 5000, otherwise 200 |
| Checkout.ClientTax | pages/Checkout.tsx:109 | exactly 18% of the cart total, not rounded |
| Checkout.ClientFinalTotal | pages/Checkout.tsx:110 | the total is 1.18 times the cart total plus shipping |
| Checkout.ClientServerShipping | pages/Checkout.tsx:108-110 | the page and the order route agree on shipping iff the total exceeds 5000; between 2000 and 5000 the page shows at least 199.50 more than the server charges |
| Checkout.ThreeThousandExample | pages/Checkout.tsx:108-110 | for 3000 the page shows 200 shipping, 540 tax and 3740 in all, while the server charges 3540 |
| Checkout.View | pages/Checkout.tsx:53-110 | the empty-cart view iff the cart is empty and no order is complete; the confirmation iff complete; otherwise the form with the page's prices, and with ₹200 shipping but no tax or total when a price does not parse |
| Checkout.Submit | pages/Checkout.tsx:41-51 | the order is complete and the cart empty |
| Checkout.SubmitShowsConfirmation | pages/Checkout.tsx:41-53 | after submitting the confirmation shows, not the empty cart; submitting again changes nothing |
| Footer.Without | components/Footer.tsx:13-19 | every copy of the category goes and the rest stay |
| Footer.Toggle | components/Footer.tsx:13-19 | a selected category is removed; an unselected one is appended last |
| Footer.WithoutAbsent | components/Footer.tsx:13-19 | removing an absent category changes nothing |
| Footer.WithoutNoDuplicates | components/Footer.tsx:13-19 | removal keeps the selection duplicate free |
| Footer.ToggleTwice | components/Footer.tsx:13-19 | toggling keeps the selection duplicate free; toggling twice gives the same set, the same list when the category was absent |
| Footer.Submit | components/Footer.tsx:21-41 | an empty e-mail changes nothing; success clears the e-mail and the selection; failure keeps both and shows the error |
| Footer.RequestOf | contexts/AppContext.tsx:689-697 | the request carries the e-mail and the selection, with the part before '@' as the name |
| Footer.TickedBoxesRefused | components/Footer.tsx:59 | the footer's upper-case labels are refused by the subscribe route's category rule, so any ticked box fails |

## Left out

- E-mail validation and normalisation (`isEmail`, `normalizeEmail`) and express-rate-limit windows are library behaviour. Request e-mails are taken as given.
- Express routing and response envelopes are not modelled. Outcomes are status codes and datatypes.
- The database is an in-memory map of documents. These are not modelled:
  - `find`/`findOne` queries, `$text` search and ranking;
  - the `$or` lookup by `_id` and `productId` (backend/routes/orders.js:111-114): products are looked up by the model's product key only. In the source, a seeded id such as `school-shirt-001` is not an ObjectId, so the `_id` branch fails its cast, `findOne` rejects and the route answers 500. The model's checking loop answers 400 for an unknown product or goes on instead. POST /:id/tracking looks the order up with the same `$or` shape (backend/routes/orders.js:497-499), so an id that is not an ObjectId answers 500 there too, where OrderRoutes.AddTracking answers 404 or 200;
  - the regex product-name suggestions;
  - aggregations, including order statistics, newsletter statistics other than the growth rate, filter options and category statistics;
  - `readyState` checks, which are a boolean parameter.
- Each e-mail, auto-reply and SMS send is an outcome parameter. So is each save of the contact routes: the `saveOk` parameter of ContactRoutes.HandleContactForm and ContactRoutes.HandleEnquiry. A save fails, for example, for an e-mail that `isEmail` accepts but the schema's pattern refuses, or for an enquiry text longer than the 2000-character maximum; Mongoose then refuses the record before the hook runs, and the route still answers success with the unsaved record's id. The newsletter confirmation e-mail is the `confirmationSent` parameter of NewsletterRoutes.Subscribe: its failure answers 500 after the record was written. POST /orders sends neither: its confirmation e-mail and SMS calls are commented out (backend/routes/orders.js:207-211). backend/services/emailService.js and backend/services/smsService.js are not part of this model.
- Randomness is not modelled. The order id is passed in. The guest password and the verification and reset tokens are left out.
- Time is an `int` of milliseconds passed as `now`.
- Password hashing, JWT signing and the routes of backend/routes/auth.js are not part of this model.
- The order routes PUT /:id/status, GET /:id and GET /stats/summary are left out. Only the pagination arithmetic of GET / is modelled.
- The contact routes /quote, /samples, /consultation and /test-sms are left out. So are the newsletter routes /status/:email and /subscribers (except its engagement bands) and /stats (except its growth rate).
- The subscribers' `customFields` merge is not modelled, because it is an untyped object.
- The virtuals `orderAge`, `subscriptionDuration`, `formattedDate` and `discountPercentage` are not modelled.
- Mongoose's array casting (lower-casing and trimming of tags and categories) and schema validation are not modelled. One consequence: the subscriber schema's e-mail pattern (backend/models/Newsletter.js:9-12) refuses addresses that `isEmail` accepts, such as "a@shop.info" or "a+b@x.com". For a new address `Newsletter.create` then throws and the route answers 500 with nothing stored, where NewsletterRoutes.Subscribe stores the record. The exceptions are the order's required `orderId` and each order item's required image, which turn the order creation into a 500 (OrderRoutes.CreateValidates).
- Query strings are taken as already parsed integers. An absent parameter is `None`.
- ProductRoutes.ListPage: `minPrice` and `maxPrice` arrive as numbers. A non-numeric string, which `isFloat` rejects with 400, is not modelled. The filters' effect on the query (`sizes`, `colors`, `tags` and the price range) is left to the database and not modelled.
- OrderRoutes.AddTracking: the estimated delivery arrives as a number of milliseconds. A string that `isISO8601` refuses, which answers 400 in the source (backend/routes/orders.js:479-482), is not modelled.
- The concurrent check-then-decrement race between simultaneous orders is out of scope: the model is single-request.
- The UI-only pages and components are not part of this model. Neither are localStorage persistence, the dynamic-import and alert wrappers of AppContext.tsx, the footer's message timer and the checkout's processing delay.
- The enquiry-list operations of the client context are not modelled: they are not defined in contexts/AppContext.tsx.
- OrderRoutes.Tax: `Math.round(subtotal * 0.18)` is taken as exact 18% rounded half up. The floating-point product is not modelled.
- NewsletterModel.Score: only its 0 to 100 bound is stated. The 40/40/20 formula is computed over reals, not IEEE doubles.
- NewsletterModel.Rate: computed on exact rationals, not doubles.
- Storefront.ParsePrice: `parseFloat` is modelled as reading the leading decimal digits. Fractions are not read. A string with no leading digit gives no number (NaN), which makes the cart total undefined. `parseFloat` also skips leading whitespace and reads a sign or a leading '.', which the model does not: "₹ 500" gives 500 in the source and no number in the model, and "-5" or ".5" give numbers in the source and none in the model.
- Catalog.PriceKey: a price that does not parse sorts as 0. NaN comparisons in a JavaScript sort are not modelled.
- Catalog.NameLeq: `localeCompare` is approximated by character-code order.
- Catalog.SortInPlace: the stability and the exact comparison sequence of the engine's `sort` are not stated. Only the sortedness and the permutation are.
- Text operations (`toLowerCase`, `trim`, `\s`) cover ASCII only.

## Findings

| source | as written | input that shows it | evidently intended | confidence | as-written member | corrected member |
|---|---|---|---|---|---|---|
| backend/routes/orders.js:179-199 | `Order.create` is given no `orderId`. The schema requires one (backend/models/Order.js:4-8), and only the `pre('save')` hook generates it (backend/models/Order.js:318-324). Mongoose validates before that hook runs, so the create throws and the route answers 500 for every request that passed the checks, after creating the guest user | any order that passes the checks, e.g. one line naming a product by its ObjectId, in stock in size M and colour white, with an image | the id is generated before validation (in a `pre('validate')` hook or in the create call), so the order is created and the stock taken | not executed | OrderRoutes.PlaceOrderAsWritten, OrderRoutes.UnsetOrderIdRejected | OrderRoutes.PlaceOrder |
| backend/routes/contact.js:422 | POST /enquiry awaits `smsService.sendEnquiryNotification(...)`, but backend/services/smsService.js defines only sendContactNotification, sendQuoteNotification, sendSampleRequestNotification, sendConsultationNotification and sendTestSMS. The call throws a TypeError, and the catch at backend/routes/contact.js:439-446 answers 500 after the record was saved and both e-mails were sent | any valid enquiry, e.g. name "Al", phone "9", message "Hi" and one item | the enquiry SMS goes out and the route answers success with the item count | not executed | ContactRoutes.HandleEnquiryAsWritten, ContactRoutes.ValidEnquiryWitness | ContactRoutes.HandleEnquiry |
