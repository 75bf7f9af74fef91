# Villaja marketplace back end — a Dafny model

This project models the request handlers of the Villaja marketplace, an
Express/Mongoose back end. It covers:

- buyers: registration, e-mail verification, login, address book and password reset;
- shops (sellers): creation, verification, login, profile and withdraw method;
- the product catalogue: creation with colour variants, update, stock, deletion, reviews and the top-10 lists;
- orders: one order per shop at checkout, and the seller and admin status updates that settle stock and credit balances;
- withdraw requests;
- "quick sell" listings, one unsold listing per user.

How the model is built:

- The database is one `Store.Db` object with a map per collection.
- Each handler is a method that changes only the collections its `modifies` clause names.
- Each method's `ensures` gives the reply (as an HTTP status code) and the new state for every path through the handler, error paths included.
- That new state is stated through pure functions: settling a cart, applying a status, upserting a review or an address, verifying an account, issuing and consuming a reset token.
- Lemmas state what the handlers promise about those functions:
  - a checkout splits the cart into orders without losing or duplicating a line, and the order totals add up to the cart's value;
  - stock plus units sold is conserved by settlement, and the seller route's settlement is not idempotent;
  - the seller route overwrites the balance while the admin route adds to it;
  - a user has at most one unsold quick-sell listing, and every handler keeps that true;
  - a verified account stays verified, and an unverified one cannot log in whatever its password;
  - a reset token works only within its hour and only once;
  - the top lists are sorted, at most ten long and drawn from the catalogue.

Inputs the program gets from elsewhere become parameters:

- the clock (`now`);
- the image service (`upload`);
- the request validators (`bodyValid`);
- the password hash comparison (`checkPassword`).

Random codes and tokens are nondeterministic choices; the model fixes only their length and alphabet.

Modules, one per component:

- `Common` and `Entities`: ids, options, status codes and records;
- `Store`: the database;
- `Accounts`: credential rules shared by users and shops;
- `Users`, `Shops`;
- `OrderAssembly`, `OrderStatus`;
- `Withdrawals`;
- `QuickSellSchema`, `QuickSellListings`;
- `Products`, `Rankings`.

## Model

| member | source | states |
|---|---|---|
| OrderAssembly.ReduceIsSum | controller/order.js:50-56 | The `reduce` with its accumulator equals the accumulator plus the sum of the line prices (discount price when non-zero, else original price). |
| OrderAssembly.OrderTotal | controller/order.js:50-56 | An order's `totalPrice` is the sum of its line prices. |
| OrderAssembly.SumPricesAppend | controller/order.js:50-56 | The total of two line lists laid end to end is the sum of their totals. |
| OrderAssembly.SumPricesPermutation | controller/order.js:50-56 | Reordering the lines does not change the total. |
| OrderAssembly.SumPricesPointwise | controller/order.js:50-56 | Two line lists whose prices agree line by line have the same total. |
| OrderAssembly.TotalIgnoresQuantity | controller/order.js:50-56 | The total does not depend on the ordered quantities; quantity is never multiplied in. |
| OrderAssembly.FirstIndex | controller/order.js:34-40 | The first cart line of a shop: every earlier line belongs to another shop. |
| OrderAssembly.FirstIndexSnoc | controller/order.js:34-40 | Appending a line keeps an earlier first occurrence and otherwise makes the new line the first. |
| OrderAssembly.ShopsOfSpec | controller/order.js:32-45 | The grouping's keys are distinct and are exactly the shops that occur in the cart, in order of first appearance (Map insertion order). |
| OrderAssembly.ShopsOfMembers | controller/order.js:32-45 | A shop gets an order exactly when some cart line carries it. |
| OrderAssembly.ItemsOfSnoc | controller/order.js:34-40 | Pushing a line extends only its own shop's group. |
| OrderAssembly.ItemsOfSpec | controller/order.js:34-40 | A shop's group holds only that shop's lines, each as often as the cart does. |
| OrderAssembly.ItemsOfAbsent | controller/order.js:34-40 | A shop with no line gets an empty group. |
| OrderAssembly.ConcatSnocShop | controller/order.js:45-59 | Adding a shop appends that shop's group to the concatenated order carts. |
| OrderAssembly.ConcatSnocItem | controller/order.js:34-40 | Adding a line adds it once to the concatenated carts when its shop is among the keys. |
| OrderAssembly.GroupingIsPermutation | controller/order.js:32-59 | The created orders' carts, taken together, are a permutation of the cart: no line lost or duplicated. |
| OrderAssembly.SumTotalsIsConcatSum | controller/order.js:45-59 | The sum of the order totals is the total of the concatenated carts. |
| OrderAssembly.OrderTotalsCoverCart | controller/order.js:45-59 | The order totals add up to the value of the whole cart. |
| OrderAssembly.GroupStep | controller/order.js:34-40 | One loop step (create the key if missing, push the line) keeps the grouping invariant. |
| OrderAssembly.GroupByShop | controller/order.js:32-40 | The loop builds the Map: its keys in first-appearance order, each key holding exactly that shop's lines in cart order. |
| OrderAssembly.NewOrder | controller/order.js:46-57 | A created order holds its shop's lines, the summed total, status "Processing", no delivery time. |
| OrderAssembly.SaveOrders | controller/order.js:45-62 | The loop over the grouped Map adds one order per shop under a fresh id, in key order, each holding that shop's lines; orders already stored are unchanged. It answers 201 exactly when every shop exists; otherwise it stops with 500 after adding the order of the first missing shop. |
| OrderAssembly.CreateOrders | controller/order.js:25-327 | One new order per shop, in first-appearance order. Existing orders are unchanged. Answers 201 exactly when every shop exists. Otherwise answers 500 after creating the order for the first missing shop; the orders created before it remain. |
| OrderStatus.NetPayout | controller/order.js:395-396 | The service charge is zero, so the payout is the whole order total. |
| OrderStatus.SellerSettleItem | controller/order.js:457-463 | The seller route's `updateOrder` on one line: `stock` drops and `sold_out` rises by the quantity, so their sum is kept. No other product changes and no product is added or removed; a product that no longer exists is left alone. |
| OrderStatus.SellerSettleEffect | controller/order.js:457-463 | Seller settlement moves exactly the ordered quantity of each product from `stock` to `sold_out`. It changes nothing else and keeps the set of products. |
| OrderStatus.SellerSettleConserves | controller/order.js:457-463 | `stock + sold_out` of every product is unchanged. |
| OrderStatus.QtyForAbsent | controller/order.js:382-384 | A product the cart does not name has no ordered quantity. |
| OrderStatus.SellerSettleFrame | controller/order.js:382-384 | A product the cart does not name is untouched. |
| OrderStatus.SellerSettleTwice | controller/order.js:381-384 | Settlement is not idempotent: a second fulfilment update takes the quantities out of stock again. |
| OrderStatus.FirstColorIndex | controller/order.js:599 | `findIndex` on the colour list: the first variant of that colour, or none. |
| OrderStatus.ColorStockTake | controller/order.js:603 | Taking `qty` from one variant lowers the variants' total stock by `qty`. |
| OrderStatus.TakeKeepsStock | controller/order.js:598-614 | Taking `qty` from the matched colour variant, with the `$inc` on `stock` and `sold_out`, changes only stock counters, conserves `stock + sold_out` and keeps the product's stock in step with its variants'. |
| OrderStatus.AdminSettleItem | controller/order.js:595-626 | The admin route's `updateOrder` on one line: with a variant of the line's colour, the first such variant's stock and the product's stock drop by the quantity and `sold_out` rises by it; otherwise nothing changes. No other product changes and no product is added or removed. |
| OrderStatus.AdminSettle | controller/order.js:514-518 | The admin route's settlement of a whole cart, line by line; it keeps the set of products. |
| OrderStatus.AdminSettleItemSettles | controller/order.js:595-626 | Settling one cart line by the admin route keeps every product's stock invariants, whether or not the colour matches. |
| OrderStatus.AdminSettleInvariants | controller/order.js:595-626 | Admin settlement keeps the set of products. It changes only stock counters and conserves `stock + sold_out`. It keeps the gap between the product's stock and its variants' total stock. |
| OrderStatus.AdminUnmatchedColour | controller/order.js:599-620 | A line whose colour no variant carries leaves the products unchanged. |
| OrderStatus.AdminSettleFrame | controller/order.js:595-626 | A product no cart line names keeps its value, and is present afterwards exactly when it was before. |
| OrderStatus.AdminSettleItemEffect | controller/order.js:599-613 | One line takes its quantity out of `stock` and adds it to `sold_out` exactly when the product has a variant of the line's colour. |
| OrderStatus.AdminSettleEffect | controller/order.js:514-518 | Net effect of admin settlement: each product loses from `stock`, and gains in `sold_out`, the quantity the cart orders of it in colours it has a variant for. |
| OrderStatus.AdminNotIdempotent | controller/order.js:599-613 | Settling a line whose colour matches a second time takes its quantity out of stock again, so the admin route is not idempotent. |
| OrderStatus.SellerSettleDrifts | controller/order.js:457-463 | The seller route lowers `stock` without lowering any variant's stock, so the two drift apart. |
| OrderStatus.ApplyStatus | controller/order.js:388-394 | The new status is set and cart, total and buyer are kept. "Delivered" also stamps the delivery time and marks the payment "Succeeded". |
| OrderStatus.CreditBySeller | controller/order.js:466-470 | The seller route's `updateSellerInfo` overwrites the balance with the payout. |
| OrderStatus.CreditByAdmin | controller/order.js:630-637 | The admin route's `updateSellerInfo` adds the payout to the balance. |
| OrderStatus.TwoDeliveries | controller/order.js:466-470 | Two deliveries credited on the seller route leave only the second payout; on the admin route both add up. |
| OrderStatus.SettleBySeller | controller/order.js:382-384 | The `forEach(updateOrder)` loop leaves the products as the seller settlement of the cart. |
| OrderStatus.SettleByAdmin | controller/order.js:514-518 | The admin route's loop leaves the products as the per-variant settlement of the cart. |
| OrderStatus.UpdateOrderStatusBySeller | controller/order.js:371-477 | An unknown order answers 400 and nothing changes. Otherwise products are settled on "Ready To Ship" or "Delivered". On "Delivered" the seller's balance is overwritten with the payout, or the request fails with 500 when the seller is missing. The buyer is notified exactly when the status changes. |
| OrderStatus.UpdateOrderStatusByAdmin | controller/order.js:500-639 | As the seller route, except that stock is settled per colour variant. On "Delivered" the payout is added to the balance of the first line's shop; an empty cart or a missing shop fails with 500. |
| Withdrawals.Debit | controller/withdraw.js:41 | A withdraw request lowers the shop's balance by the amount. |
| Withdrawals.MarkSucceeded | controller/withdraw.js:132-139 | Approval sets the withdraw's status to "succeed" and its update time to now. |
| Withdrawals.AppendTransaction | controller/withdraw.js:150 | The transaction is appended after the seller's earlier history. |
| Withdrawals.RequestThenApprove | controller/withdraw.js:37-41 | A request and its approval lower the balance by the amount, append exactly one transaction (id, amount, approval time, "succeed") and change nothing else about the shop. |
| Withdrawals.OverdraftAllowed | controller/withdraw.js:41 | No balance check: a withdrawal larger than the balance leaves it negative. |
| Withdrawals.ApprovalIsAppendOnly | controller/withdraw.js:143-150 | Approval keeps the earlier history and the balance and appends one entry. |
| Withdrawals.CreateWithdrawRequest | controller/withdraw.js:25-101 | The withdraw is created first. Then the balance is debited by the amount and the reply is 201. A missing shop fails with 500 and no debit. |
| Withdrawals.ApproveWithdraw | controller/withdraw.js:124-210 | An unknown withdraw answers 500 and nothing changes. Otherwise the withdraw is marked "succeed" at `now`. The transaction is then appended to the seller's history (201). A missing seller fails with 500 after the withdraw was marked. |
| QuickSellSchema.ToImages | model/quickSell.js:10-21 | Validated image entries become stored images, one for one. |
| QuickSellSchema.Validate | model/quickSell.js:4-46 | Saving succeeds exactly when the owner, name, price, category, condition and every image's `public_id` and `url` are present. The required strings must also be non-empty. A saved listing carries exactly the draft's fields. |
| QuickSellSchema.NewDraft | model/quickSell.js:38-45 | A new listing is unsold and stamped with the creation time. |
| QuickSellSchema.StoredListingRevalidates | model/quickSell.js:4-46 | Re-saving a stored listing validates to itself. |
| QuickSellSchema.ValidatedIsWellFormed | model/quickSell.js:4-46 | Every listing validation lets through has non-empty required strings. |
| QuickSellListings.ActiveListingsOf | controller/quickSell.js:60 | The ids of exactly the user's unsold listings. |
| QuickSellListings.AtMostOneActive | controller/quickSell.js:30-34 | Under the one-active-listing invariant a user has at most one unsold listing. |
| QuickSellListings.Uploaded | controller/quickSell.js:124-134 | One image entry per uploaded file, in order. |
| QuickSellListings.CreatePreserves | controller/quickSell.js:30-45 | Creating a listing for a user without an unsold one keeps the invariant. |
| QuickSellListings.SellPreserves | controller/quickSell.js:88-89 | Marking a listing sold keeps the invariant. |
| QuickSellListings.SellIdempotent | controller/quickSell.js:88-89 | Selling twice is selling once. |
| QuickSellListings.ReplacePreserves | controller/quickSell.js:137-143 | An update that keeps the owner and `sold` keeps the invariant. |
| QuickSellListings.DeletePreserves | controller/quickSell.js:182 | Deleting keeps the invariant. |
| QuickSellListings.CreateAfterSell | controller/quickSell.js:31-33 | Once the active listing is sold the user may create a new one. |
| QuickSellListings.CreateListing | controller/quickSell.js:19-51 | An unknown user answers 404. A user with an unsold listing answers 400. A listing that fails the schema is not saved (500). Otherwise one new unsold listing owned by the caller (201). The invariants are kept. |
| QuickSellListings.GetActiveListings | controller/quickSell.js:54-69 | Returns exactly the caller's unsold listings and changes nothing. An unknown user answers 500. |
| QuickSellListings.SellListing | controller/quickSell.js:72-99 | An unknown listing answers 404 and a non-owner 403. Otherwise exactly that listing is marked sold (200). |
| QuickSellListings.UpdateListing | controller/quickSell.js:102-153 | The checks run in order: an unknown listing answers 404, an unknown user 500, a non-owner 403, a missing image list 500. Then every file is uploaded in order and images, name, price, category and condition are replaced. Owner and `sold` stay. A result that fails the schema is not saved (500). |
| QuickSellListings.DeleteListing | controller/quickSell.js:156-192 | An unknown listing answers 404, an unknown user 500 and a non-owner 403. Otherwise exactly that listing is removed (200). |
| Products.UploadAll | controller/product.js:37-45 | One uploaded image per file, in order. |
| Products.BuildColorList | controller/product.js:34-58 | Each stored variant keeps its colour, stock and index and holds the images of its own files. |
| Products.ImageCount | controller/product.js:34-58 | The product's image list has one entry per file over all variants. |
| Products.NewProduct | controller/product.js:33-78 | A created product holds the built variants. Its images are theirs, or the stock image when there are no variants. |
| Products.CreateProduct | controller/product.js:15-92 | An invalid body or an unknown shop answers 400 and nothing is stored. Otherwise the nested upload loops store exactly the new product (201). |
| Products.SetField | controller/product.js:133-137 | `product[key] = updateData[key]` for one key the product record has; a key it lacks is dropped on save. |
| Products.ApplyUpdates | controller/product.js:133-137 | The copy loop over the body's keys in order, skipping `_id` and `createdAt`. |
| Products.SetFieldOtherKey | controller/product.js:133-137 | Copying one key leaves what another key holds. |
| Products.UpdateCopiesEveryKey | controller/product.js:133-137 | Every key of the body except `_id` and `createdAt` ends up on the product, `reviews` and `ratings` included. |
| Products.UpdateLeavesOtherKeys | controller/product.js:133-137 | A key the body does not name keeps its value, whatever the other keys are. |
| Products.UpdateKeepsCreatedAt | controller/product.js:133-137 | The update never changes the creation time, even when the body names `createdAt`. |
| Products.SortByStockDescending | controller/product.js:139 | The colour list is sorted by stock, largest first, and is a permutation of the old one. |
| Products.InsertByStock | controller/product.js:139 | One insertion step extends the sorted prefix by one and permutes the list. |
| Products.UpdateProduct | controller/product.js:114-152 | An unknown product answers 404. Otherwise the product becomes the copy loop's result over every body key but `_id` and `createdAt`, with its colour list sorted by stock and permuted (200). |
| Products.UpdateProductStock | controller/product.js:156-191 | A stock that is missing, not a number or negative answers 400 before any lookup. An unknown product answers 404. Otherwise only `stock` changes (200). |
| Products.DeleteProduct | controller/product.js:198-232 | An unknown product answers 404. Otherwise exactly that product is removed (201). |
| Products.Upsert | controller/product.js:269-281 | When the caller has reviewed, every review of theirs gets the new rating, comment and user; otherwise the new review is appended. |
| Products.UpsertCount | controller/product.js:269-281 | The review list grows by one exactly when the caller had no review. |
| Products.UpsertRecords | controller/product.js:269-281 | After the upsert the new rating and comment stand under the new user, and other users' reviews are kept in place. |
| Products.UpsertIdempotent | controller/product.js:269-281 | Reviewing twice with the same review is reviewing once. |
| Products.MarkReviewed | controller/product.js:293-297 | Exactly the order's lines of that product are marked reviewed; the rest of the order is unchanged. |
| Products.CreateReview | controller/product.js:253-307 | An unknown product answers 400. Otherwise the review is upserted and the rating becomes the sum and count of all ratings. The product's lines in the named order are marked reviewed when the order exists (200). |
| Rankings.InsertPermutes | controller/product.js:335 | Inserting adds exactly that product and keeps every other one. |
| Rankings.InsertRanked | controller/product.js:335 | Inserting into a ranked list keeps it ranked. |
| Rankings.InsertSpec | controller/product.js:335 | Inserting into a ranked list keeps it ranked and adds exactly that product. |
| Rankings.Sort | controller/product.js:335 | The catalogue sorted by one key, best first. |
| Rankings.SortSpec | controller/product.js:335 | Sorting permutes the catalogue into ranked order. |
| Rankings.RankedPrefix | controller/product.js:335 | A prefix of a ranked list is ranked. Nothing after it ranks above its last element. |
| Rankings.TopTen | controller/product.js:335-369 | The first ten products of the sorted catalogue (`.sort(...).limit(10)`). |
| Rankings.TopTenSpec | controller/product.js:335 | A top list holds ten products, or all of them when there are fewer. It is ranked and drawn from the catalogue, and no product left out ranks above its last entry. |
| Rankings.TopListOrders | controller/product.js:331-378 | Just-arrived is newest first, best-selling is most sold first, top-deals is cheapest discount price first. |
| Accounts.GenerateNewVerificationCode | controller/user.js:281-291 | The loop returns six characters, each one of "0123456789". |
| Accounts.NewSignupCode | controller/user.js:51 | A sign-up code is six upper-case hexadecimal digits. |
| Accounts.NewResetToken | controller/user.js:785 | A reset token is forty lower-case hexadecimal digits. |
| Accounts.Verify | controller/user.js:140-175 | A verified account is left alone. A matching code marks the account verified and clears the code; another code changes nothing. |
| Accounts.VerifySpec | controller/user.js:136-175 | An account ends verified exactly when it was verified or the code it was sent is presented. A wrong code changes nothing (400). Verifying clears the code. A verified account stays as it is. |
| Accounts.ResendSupersedes | controller/user.js:229-238 | After a resend the old code no longer verifies and the new one does. |
| Accounts.LoginGate | controller/user.js:304-322 | The login checks in order: missing fields, no account, not verified, wrong password; each is a 400. |
| Accounts.LoginGateSpec | controller/user.js:304-322 | Login succeeds exactly for present fields, an existing verified account and a matching password. An unverified account is refused whatever password is given. |
| Accounts.IssueReset | controller/user.js:786-796 | A reset request stores the token and an expiry one hour (3600000 ms) after now. |
| Accounts.ApplyReset | controller/user.js:943-947 | A reset sets the new password and clears the token and expiry. |
| Accounts.ResetSpec | controller/user.js:785-947 | An issued token opens a reset exactly until an hour after issue. A reset sets the password, consumes the token and keeps verification. A newer token retires the older one. |
| Users.EmailsStayUnique | controller/user.js:39-43 | The duplicate check keeps e-mails unique, and so does any change that keeps a user's e-mail. |
| Users.Register | controller/user.js:32-128 | An invalid body or a taken e-mail answers 400 and nothing is created. Otherwise one new unverified user with a six-character sign-up code and no addresses (201). |
| Users.VerifyUserEmail | controller/user.js:130-208 | An unknown user answers 404. Otherwise the account goes through the verification state machine and the reply is 200 or 400 accordingly. |
| Users.ResendVerificationCode | controller/user.js:215-276 | An unknown e-mail answers 404. A verified user is unchanged (200). Otherwise the code is replaced by six fresh digits (200). |
| Users.Login | controller/user.js:297-365 | Changes nothing. Answers 200 exactly when the login gate admits the account the e-mail finds, else 400. |
| Users.FindSameId | controller/user.js:561-563 | The first address whose `_id` is the body's `_id`, or none. |
| Users.UpsertAddress | controller/user.js:556-569 | Merge the body into the first address with the same `_id`, else push it, with a generated `_id` when it names none. |
| Users.UpsertAddressSpec | controller/user.js:552-570 | For a type not yet in use, the body's fields all land in one address: the one with its `_id`, else a new last one. A new address without an `_id` carries the generated one. Every other address is untouched. Address types stay distinct, and so do address ids. |
| Users.WithoutAddress | controller/user.js:594-599 | `$pull` removes every address whose `_id` is the one given, keeping the rest in order. |
| Users.WithoutAddressMembers | controller/user.js:594-599 | An address is kept exactly when it was there and its `_id` differs from the one pulled. |
| Users.WithoutAddressShrinks | controller/user.js:594-599 | The kept addresses are a sub-multiset of the original; nothing is added or duplicated. |
| Users.WithoutAddressDistinct | controller/user.js:594-599 | Pulling addresses keeps the address types distinct when they were. |
| Users.UpdateUserAddresses | controller/user.js:542-582 | An invalid body answers 400. An unknown user or an address type already in use answers 500 with no change. Otherwise the address is merged or appended, and the id generated for an appended address is held by no other address of the user (200). |
| Users.DeleteUserAddress | controller/user.js:586-608 | Always answers 200. The user's addresses with that `_id` are removed. |
| Users.UpdateUserPassword | controller/user.js:610-693 | An invalid body, a wrong old password or a mismatched confirmation answers 400 with no change. An unknown user answers 500. Otherwise the password is saved and the reply is still 500. |
| Users.ForgotPassword | controller/user.js:767-862 | An invalid body answers 400 and an unknown e-mail 404. Otherwise the account found gets a forty-digit token expiring in an hour (200). |
| Users.ResetPassword | controller/user.js:926-974 | No account with that unexpired token answers 400. Mismatched passwords answer 400 with no change. Otherwise the password is set and the token cleared (200). |
| Shops.EmailsStayUnique | controller/shop.js:44-48 | The duplicate check keeps shop e-mails unique, and so does any change that keeps a shop's e-mail. |
| Shops.AvatarOf | controller/shop.js:53-67 | An uploaded avatar when one is sent, else the fixed default avatar. |
| Shops.CreateShop | controller/shop.js:37-178 | An invalid body or a taken e-mail answers 400 and nothing is created. Otherwise one new unverified shop with its avatar, a sign-up code, zero balance, no history and no withdraw method (201). |
| Shops.VerifyShopEmail | controller/shop.js:182-260 | The same verification state machine as for users; an unknown shop answers 404. |
| Shops.LoginShop | controller/shop.js:265-309 | Changes nothing. Answers 201 exactly when the login gate admits the shop the e-mail finds, else 400. |
| Shops.WithSellerInfo | controller/shop.js:420-424 | The handler assigns name, description, address, phone number and zip code from the body. |
| Shops.SellerInfoSpec | controller/shop.js:420-424 | The update sets exactly name, description, address, phone number and zip code and keeps everything else; the last update wins. |
| Shops.UpdateSellerInfo | controller/shop.js:404-486 | An invalid body or an unknown shop answers 400. Otherwise the five profile fields are overwritten (201). |
| Shops.DeleteWithdrawMethod | controller/shop.js:559-582 | An unknown shop answers 400. Otherwise only the withdraw method is cleared (201). |
| Shops.ForgotShopPassword | controller/shop.js:586-681 | As for users: 400, 404, or a forty-digit token with a one-hour expiry on the shop found (200). |
| Shops.ResetShopPassword | controller/shop.js:745-793 | As for users: 400 without an unexpired matching token or with mismatched passwords. Otherwise the password is set and the token cleared (200). |

## Left out

- E-mail sending (nodemailer) and the HTML replies. Mail is best-effort I/O; the model records only whether a status change would notify the buyer.
- Image upload and deletion are a deterministic `upload` function; image deletion is not modelled.
- JWT signing and verification, and the login and admin middleware: the caller's id is a parameter.
- bcrypt password hashing on save and `comparePassword`: the password is kept as given, and the comparison is a `checkPassword` parameter.
- The request validators are a `bodyValid` parameter.
- Regex search, the plain list endpoints (all products, orders of a user or shop, withdraws) and the reset-password GET form are not modelled.
- The shadowed duplicate routes `/update-user-info` (controller/user.js:451-538) and `/sell-product/:id` (controller/quickSell.js:195-223) are left out, because Express serves the first registration.
- Concurrency: the `forEach(async ...)` product updates (controller/order.js:382, 514) run unawaited and can lose updates. The model runs them one after the other, and a product missing inside them is skipped. Racing registrations with the same e-mail are not modelled. Nor are two quick-sell creations racing between the check for an active listing and the save (controller/quickSell.js:31-45), or two balance updates that read the same balance and both write it back. QuickSell.AtMostOneActive and OrderStatus.TwoDeliveries therefore hold only when requests run one at a time.
- Numbers are modelled as integers; the model covers only integer values where the source takes any JSON value. JavaScript's numbers are doubles, so the model's sums and balances are exact only below 2^53. A rating sent as a string is concatenated, not added, by the average at controller/product.js:285-287; the model adds.
- Products.UpdateProductStock: only integer stocks are modelled. `null`, `""` and a fraction such as 2.5 all pass the guard at controller/product.js:165 and are saved; the model's guard sees only a missing value, a non-number or a negative integer.
- Products.UpdateProduct: the source stores `ratings` as a number, and a body key `ratings` writes that number. The model's `ratings` is a sum and a count, so `SetRatings` carries a `Rating` value rather than the body's number.
- Floating point: the service charge `totalPrice * 0.0` is modelled as zero, and the rating average is kept as a sum and a count instead of a quotient.
- Ids are compared by value. Two consequences:
  - Review matching (`rev.user._id === req.user._id`) and address matching (`address._id === req.body._id`) use JavaScript's `===`, which on an ObjectId and another value compares identity. As written these may never match, in which case every review and address is appended.
  - An address without an `_id` is never merged into.
- Unparseable ids (Mongoose CastErrors) are not modelled, because ids are naturals.
- The schema files of users, shops, products, orders and withdraws are not part of this model. Their defaults are assumed, not taken from a schema:
  - a new order and a new withdraw have status "Processing";
  - a new product has sold count 0 and rating 0 of 0;
  - a new shop has an empty description, balance 0, no history and no withdraw method.
- A `null` written to a field (`withdrawMethod = null`) and `undefined` are both `None`.
- An `ErrorHandler` built without a status code (the address-type clash) is answered by the error middleware, which is not part of this model. It is modelled as 500.
- OrderAssembly.SaveOrders: the orders are collected in a copy of the order table, and CreateOrders writes that copy back when the loop ends, also after a failure. No other request runs in between, so the stored orders are the same as when each is saved as it is created.
- OrderStatus.UpdateOrderStatusBySeller: nothing checks that the order belongs to the calling seller, and the model keeps that gap.
- Shops.UpdateSellerInfo: the handler looks the shop up with `Shop.findOne(req.seller._id)`. This is modelled as a lookup by id.
- Users.Login, Shops.LoginShop, Users.ResendVerificationCode, Users.ForgotPassword and the other e-mail lookups: when several accounts share an e-mail, `findOne` returns one of them. The model lets it be any of them and reports which one it was.
- Sort ties: the model's stable sort keeps equal keys in input order, while the database may return ties in any order.
- `app.js` (route wiring, CORS), `middleware/auth.js` and `middleware/catchAsyncErrors.js` are plumbing and are not modelled. For a token whose account was deleted, `middleware/auth.js:16` and `:32` set `req.user` or `req.seller` to `null`; the handler then dereferences it before its own check and answers 500. The model's answer for a missing caller in each handler (the one that handler's own code gives) describes only an account that disappears after the middleware ran.
