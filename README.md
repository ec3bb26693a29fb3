# Kisfalusi Pinceklub web shop — Dafny model

A model of the core of a small winery's web shop. The shop has two parts:

- an Express server over MongoDB with four request paths:
  - the checkout route (`POST /api/order`), which stores an order, e-mails the shop owner and the customer, and for prepayment creates a PayPal payment;
  - the PayPal callback (`GET /api/paypal/execute`);
  - the admin, user and auth controllers behind the bearer-token middleware;
  - the global error handler.
- a React storefront, which holds:
  - the cart and order form of the shop page;
  - the admin panel;
  - the five-step harvest game;
  - the star-rating widget.

Each source file is one Dafny module:

| module | models |
|---|---|
| `Common` | JavaScript values the core relies on: optional fields, numbers that may be NaN, decimal digits, `split`, ObjectId strings, rows of lit marks |
| `Model` | the stored documents and the replies |
| `Queries` | the order queries |
| `Stores` | the MongoDB collections as classes whose document sequence the handlers update |
| `Server` | `backend/server.js` |
| `AdminController`, `UserController`, `AuthController`, `AuthMiddleware` | the controllers and the middleware |
| `WineStore`, `AdminPanel`, `Harvest`, `Feedback` | the React components |

Stateful code is modelled as classes with `modifies` clauses. This covers the collections, the request object the middleware passes on, the shop page, the admin panel, the harvest game and the rating widget. Pure decisions are functions, with lemmas relating them.

Services outside the code are parameters of the operations that use them:

- the PayPal gateway's answer;
- whether each mail send succeeds;
- the password hash, its comparison and the user schema's pre-save hook;
- token verification;
- the id MongoDB assigns;
- the clock;
- the outcome of schema validation;
- the answers the browser receives to its requests.

Some behaviour of the code is easy to mistake:

- New accounts get the role `"user"`; registration never assigns any other role.
- The server never stops an admin from changing or deleting their own account. Only the admin panel refuses it (`AdminController.DeleteUser` proves that the server deletes the acting admin).
- An admin may write any status text, in any order. No transition is checked, and the panel offers five of the six statuses.
- Only the exact payment method `"Előreutalás"` selects prepayment. The shop's form sends `"card"` or `"transfer"`, so orders placed from the shop always start as "Rendelés feldolgozás alatt" and never reach the gateway (`WineStore.ShopOrdersNeverPrepaid`).

## Model

| member | source | states |
|---|---|---|
| Common.ParseNatToString | src/components/HarvestSimulation.jsx:172 | the decimal text a counter is shown as reads back as that counter |
| Common.NatToStringInjective | src/components/FeedbacckSystem.jsx:121 | different numbers are shown as different decimal texts |
| Common.JoinSplit | backend/middleware/authMiddleware.js:7 | splitting a header on a character and joining the parts with it gives the header back |
| Common.SplitAfterWord | backend/middleware/authMiddleware.js:7 | a word without the separator, followed by the separator, is the first part of the split, and the rest is split independently |
| Common.LitMarks | src/components/FeedbacckSystem.jsx:60-64 | mark k (from 1) of a row is lit exactly when k is at most the level |
| Common.LitMarksCount | src/components/FeedbacckSystem.jsx:60-64 | the number of lit marks is the level clamped to 0..count |
| Model.ParseStatus | backend/controllers/adminController.js:19-31 | reading a stored status text gives a status whose text is that text; it is a free-form status exactly when the text is none of the six literals |
| Model.ParseStatusText | backend/server.js:164-167 | a canonical status survives writing its text and reading it back |
| Model.ViewOf | backend/controllers/adminController.js:76 | a user as the API shows it keeps id, email and role and drops the password |
| Queries.InsertByDateSorted | backend/controllers/adminController.js:11 | inserting into a newest-first list keeps it newest first |
| Queries.SortNewestFirst | backend/controllers/adminController.js:11 | the sort keeps the length and the multiset of orders |
| Queries.SortNewestFirstSorted | backend/controllers/adminController.js:11 | the sorted list is newest first |
| Queries.Unfulfilled | backend/controllers/adminController.js:9 | an order is kept exactly when it is in the collection and its status text is not "Teljesítve" |
| Queries.OwnedBy | backend/controllers/userController.js:25 | an order is kept exactly when it is in the collection and its customerId equals the key |
| Queries.UnfulfilledCounts | backend/controllers/adminController.js:9 | each kept order occurs as often as in the collection, each other order not at all |
| Queries.OwnedByCounts | backend/controllers/userController.js:25 | each owned order occurs as often as in the collection, each other order not at all |
| Queries.AdminOrderList | backend/controllers/adminController.js:9-11 | the admin's list is newest first and holds exactly the unfulfilled orders, each with its multiplicity |
| Queries.CustomerOrderList | backend/controllers/userController.js:25-27 | a customer's list is newest first and holds exactly the orders with that customerId, each with its multiplicity |
| Stores.FindOrder | backend/server.js:307-319 | a found order is in the collection with that id; none found means no order has that id |
| Stores.FindUser | backend/controllers/userController.js:56 | a found user is in the collection with that id; none found means no user has that id |
| Stores.FindUserByEmail | backend/controllers/authController.js:53 | a found user holds that email; none found means no user holds it |
| Stores.FindProduct | backend/controllers/adminController.js:55 | a found product is in the collection with that id; none found means no product has that id |
| Stores.MergeFields | backend/controllers/adminController.js:55-58 | an update without fields keeps the stored product, and one with every field replaces it entirely |
| Stores.MergeFieldsCompose | backend/controllers/adminController.js:55-58 | two updates in a row equal one update carrying the second's fields over the first's, so repeating an update changes nothing |
| Stores.OrderStore.InsertOne | backend/server.js:194 | the new order is appended and ids stay distinct |
| Stores.OrderStore.SetPaymentOutcome | backend/server.js:347-365 | the order with that id gets the status and payment details; every other order is unchanged |
| Stores.OrderStore.SetStatus | backend/controllers/adminController.js:22-26 | the order with that id gets the status; every other order is unchanged |
| Stores.UserStore.Insert | backend/controllers/authController.js:18-19 | the new user is appended; ids and emails stay unique |
| Stores.UserStore.Replace | backend/controllers/userController.js:78-82 | the document with that id is overwritten and all others kept; emails stay unique |
| Stores.UserStore.Delete | backend/controllers/adminController.js:99 | the collection becomes RemoveUser of the old one |
| Stores.RemoveUser | backend/controllers/adminController.js:99 | exactly the users with another id remain |
| Stores.RemoveUserWellFormed | backend/controllers/adminController.js:99 | removing a user keeps ids and emails unique |
| Stores.ProductStore.Insert | backend/controllers/adminController.js:45-46 | the new product is appended; ids stay distinct |
| Stores.ProductStore.Update | backend/controllers/adminController.js:55 | the product with that id gets MergeFields of its fields; every other product is unchanged |
| Stores.ProductStore.Delete | backend/controllers/adminController.js:66 | the collection becomes RemoveProduct of the old one |
| Stores.RemoveProduct | backend/controllers/adminController.js:66 | exactly the products with another id remain |
| Stores.RemoveProductDistinct | backend/controllers/adminController.js:66 | removing a product keeps ids distinct |
| Server.StatusCodeOf | backend/server.js:405 | an error's own non-zero status code is used, 500 otherwise |
| Server.HandleError | backend/server.js:398-410 | the error goes on when headers were already sent; otherwise a JSON reply with the error's code, the generic message and the error text, or "Ismeretlen hiba." for an empty text |
| Server.FailedSends | backend/server.js:121-135 | exactly the mails the mailer refused are logged, and nothing else happens to them |
| Server.InitialStatus | backend/server.js:164-167 | the status is "awaiting payment" exactly when the payment method is the literal "Előreutalás", "being processed" otherwise |
| Server.StampedOrder | backend/server.js:164-175 | the stored order has the server's status, time, customer ObjectId and id, and the body's other fields |
| Server.ClientStampsIgnored | backend/server.js:164-175 | two bodies that differ only in the client's status, createdAt or customerId are stored identically |
| Server.FindApprovalUrl | backend/server.js:242-250 | the result is the href of the first link whose rel is approval_url, or none when no link has that rel |
| Server.SubmitOrder | backend/server.js:160-293 | a malformed user id gives 500 and a missing database 503, both without inserting; otherwise exactly one order is inserted; a non-prepayment order gets 200 "success" with its id whatever the mailer does; a prepayment order gets 202 with the approval URL or a 500 gateway failure, and the order stays stored; a body the e-mail or gateway code cannot read goes to the error handler |
| Server.ExecutePayment | backend/server.js:298-392 | missing parameters, a missing database, a malformed id, an unknown order, a gateway failure and a success each give their own redirect or error; only a gateway answer changes the order, to "Fizetés sikertelen" or "Fizetve" with the payment details |
| AdminController.GetAllOrders | backend/controllers/adminController.js:6-16 | the reply lists exactly the unfulfilled orders, newest first, none dropped and none added |
| AdminController.UpdateOrderStatus | backend/controllers/adminController.js:19-31 | a malformed id is a 500; an unknown order gives null; otherwise only that order's status changes, to the text sent, and an absent text changes nothing |
| AdminController.GetAllProducts | backend/controllers/adminController.js:34-41 | the reply is the stored products, in their stored order |
| AdminController.CreateProduct | backend/controllers/adminController.js:43-51 | a body the schema refuses is a 500 with nothing stored; otherwise the product is appended and returned with 200 |
| AdminController.UpdateProduct | backend/controllers/adminController.js:53-62 | a malformed id is a 500; an unknown product gives null; otherwise the present fields replace the stored ones |
| AdminController.DeleteProduct | backend/controllers/adminController.js:64-71 | any well-formed id is reported deleted, whether or not the product existed |
| AdminController.Views | backend/controllers/adminController.js:76 | every user is shown, in order, without the password |
| AdminController.GetAllUsers | backend/controllers/adminController.js:74-81 | the reply lists every user without the password |
| AdminController.UpdateUser | backend/controllers/adminController.js:83-95 | a malformed id is a 500; an unknown user gives null; an email held by another user is a 500; otherwise email and role are written where present |
| AdminController.DeleteUser | backend/controllers/adminController.js:97-104 | the user is removed, including the acting admin themself |
| UserController.SearchKey | backend/controllers/userController.js:18-21 | the caller's id is compared as an ObjectId exactly when it has that form |
| UserController.GetUserOrders | backend/controllers/userController.js:9-50 | an explicit "no orders yet" exactly when the caller owns none; otherwise exactly the caller's orders, newest first |
| UserController.SubmittedOrderListed | backend/controllers/userController.js:9-50 | an order stored by the checkout route is listed for its owner and for no other caller |
| UserController.GetProfile | backend/controllers/userController.js:53-64 | the caller's own record without the password, 404 when it is gone |
| UserController.UpdateProfile | backend/controllers/userController.js:67-89 | only the caller's record changes, and only its email; an email the schema's validators refuse, and a taken email, go to the error handler with nothing written |
| UserController.ChangePassword | backend/controllers/userController.js:92-117 | the password changes only when the stored hash was loaded, the old password matches it and a new one is given, and then becomes what the save hook makes of the new one's hash; an unloaded hash or a missing old password is a 500 from the error handler |
| UserController.ChangePasswordThenLogin | backend/controllers/userController.js:104-110 | after a change, logging in with the new password succeeds, with a token for that user, exactly when the comparison accepts the stored value, and otherwise gets the wrong-password 400 |
| AuthController.NewAccount | backend/controllers/authController.js:18 | a new account stores the password as the pre-save hook makes it, and the default role |
| AuthController.Signup | backend/controllers/authController.js:6-37 | missing fields are a 400, a schema failure a 500, a taken email a 400; otherwise exactly one account is appended and 201 is returned |
| AuthController.Login | backend/controllers/authController.js:40-85 | an unknown email and a wrong password give the same 400; a token is issued exactly for a stored user whose password matches, and carries that user's id, role and email |
| AuthController.FindUserByEmailUnique | backend/controllers/authController.js:53 | with unique emails, the lookup finds the one user holding the email |
| AuthController.SignupThenLogin | backend/controllers/authController.js:6-85 | after registering, logging in with the same password yields a token for the new account with the default role |
| AuthMiddleware.TokenFromHeader | backend/middleware/authMiddleware.js:7 | no header, or a header without a space, yields no token; a token is never empty and holds no space |
| AuthMiddleware.TokenAfterAnyScheme | backend/middleware/authMiddleware.js:7 | the second word is the token whatever the first word is |
| AuthMiddleware.Authenticate | backend/middleware/authMiddleware.js:3-32 | no token or a token that fails to verify gives a 401 without calling next; a valid one sets the user to its claims and calls next once |
| AuthMiddleware.AdminOnly | backend/middleware/authMiddleware.js:34-38 | a non-admin gets a 403; an admin passes on |
| AuthMiddleware.AdminChain | backend/routes/admin.js:7 | the admin handler runs exactly when the token verifies to claims with the admin role; otherwise the reply is a 401 or a 403 |
| WineStore.FindProduct | src/components/WineStore.jsx:455 | a found product has that id; none found means no product has it |
| WineStore.ClampQuantity | src/components/WineStore.jsx:38 | a number below 1 becomes 1; NaN stays NaN |
| WineStore.AddQty | src/components/WineStore.jsx:466-468 | only quantities change; lines with another id stay as they were, and a line with the id gets the sum, NaN absorbing |
| WineStore.AddToCart | src/components/WineStore.jsx:453-481 | an unknown product changes nothing; a product in the cart gets its quantity raised; a new one is appended as a line with its name and price |
| WineStore.RemoveFromCart | src/components/WineStore.jsx:380-383 | exactly the lines with another id remain |
| WineStore.AddToCartKeepsIdsDistinct | src/components/WineStore.jsx:453-481 | adding keeps one line per product |
| WineStore.RemoveFromCartKeepsIdsDistinct | src/components/WineStore.jsx:380-383 | removing keeps one line per product |
| WineStore.RemoveFromCartAt | src/components/WineStore.jsx:380-383 | removing a line's id deletes exactly that line and keeps the order of the others |
| WineStore.RemoveAbsent | src/components/WineStore.jsx:380-383 | removing an id not in the cart changes nothing |
| WineStore.LineValue | src/components/WineStore.jsx:446-451 | a line is worth price times quantity, 0 when either is NaN |
| WineStore.CartTotalConcat | src/components/WineStore.jsx:446-451 | the total of two carts joined is the sum of their totals |
| WineStore.CartTotalUpdate | src/components/WineStore.jsx:446-451 | replacing a line changes the total by the difference of the two line values |
| WineStore.AddToCartExisting | src/components/WineStore.jsx:462-468 | adding a product already in the cart updates exactly its line |
| WineStore.AddToCartExistingTotal | src/components/WineStore.jsx:453-481 | adding q of a product already in the cart raises the total by its price times q |
| WineStore.AddToCartNewTotal | src/components/WineStore.jsx:453-481 | adding a new product raises the total by its price times the quantity |
| WineStore.RemoveFromCartTotal | src/components/WineStore.jsx:380-383 | removing a line lowers the total by exactly that line's value |
| WineStore.ShippingFee | src/components/WineStore.jsx:103-110 | courier costs 1500, parcel point 990 and pickup 0; the fee is 0 exactly for pickup and 1500 exactly for courier |
| WineStore.ValidateForm | src/components/WineStore.jsx:120-135 | the form is valid exactly when name and email are filled, the email holds an "@", and the city, address and zip are filled unless the order is picked up |
| WineStore.PayloadItems | src/components/WineStore.jsx:152-157 | one item per cart line with its id, name, quantity and price, and no item carries a unit price |
| WineStore.BuildPayload | src/components/WineStore.jsx:150-162 | the payload carries the form, one item per line with its id, name, quantity and price, and the cart total plus the fee as both total and totalPrice; it never sets status, createdAt or customerId |
| WineStore.ShopOrdersNeverPrepaid | backend/server.js:164-167 | an order placed from the shop is never prepayment, starts "being processed", and its customer mail can be built |
| WineStore.ShopPayloadNotPayable | backend/server.js:214-224 | a non-empty shop payload lacks the unit prices the gateway request reads |
| WineStore.ChooseToken | src/components/WineStore.jsx:485 | the session token is preferred, then the stored one; an empty token counts as none |
| WineStore.AnswerOf | src/components/WineStore.jsx:502-512 | a reply is ok exactly when its code is 2xx; a redirect answer carries its action and URL |
| WineStore.ErrorText | src/components/WineStore.jsx:507 | never empty; the answer's message when there is one, else its error, else "Ismeretlen szerverhiba" |
| WineStore.CheckoutResult | src/components/WineStore.jsx:483-522 | no token gives the login notice; a failure gives an error notice; a redirect answer moves the window; any other success empties the cart; the cart is otherwise kept |
| WineStore.AcceptedOrderEmptiesCart | src/components/WineStore.jsx:513-521 | the server's 200 for a non-prepayment order empties the cart and shows the server's message |
| WineStore.Storefront.constructor | src/components/WineStore.jsx:85-95 | the page starts loading, with an empty cart and the initial form with the courier fee |
| WineStore.Storefront.ProductsLoaded | src/components/WineStore.jsx:429-443 | a list replaces the products, a failure sets the error; loading ends |
| WineStore.Storefront.Add | src/components/WineStore.jsx:453-481 | the cart becomes AddToCart of the old cart, one line per product |
| WineStore.Storefront.Remove | src/components/WineStore.jsx:380-383 | the cart becomes RemoveFromCart of the old cart |
| WineStore.Storefront.Clear | src/components/WineStore.jsx:359-361 | the cart is emptied |
| WineStore.Storefront.OpenOrderForm | src/components/WineStore.jsx:556-563 | the form opens exactly for a signed-in user; everyone else gets an alert |
| WineStore.Storefront.CloseOrderForm | src/components/WineStore.jsx:70 | closing the form loses its state: the initial form, the courier fee, no notice |
| WineStore.Storefront.Edit | src/components/WineStore.jsx:100-111 | the fee always follows the chosen shipping option |
| WineStore.Storefront.Submit | src/components/WineStore.jsx:137-177 | an invalid form only shows a notice; a valid one sends the payload with the chosen token and applies CheckoutResult |
| AdminPanel.Endpoint | src/components/AdminPanel.jsx:147-152 | each view lists its own endpoint |
| AdminPanel.StatusOptionsAreKnown | src/components/AdminPanel.jsx:427-435 | the selector offers five distinct known statuses: all but "Fizetés sikertelen" |
| AdminPanel.RoleOptionsAreRoles | src/components/AdminPanel.jsx:479-480 | the role selector offers exactly "user" and "admin" |
| AdminPanel.ProductRequest | src/components/AdminPanel.jsx:21-24 | an edit is a PUT to the product's own path, a new product a POST to the collection, both with the form |
| AdminPanel.UserPathInjective | src/components/AdminPanel.jsx:228 | two user paths are equal only for the same id |
| AdminPanel.Panel.StartFetch | src/components/AdminPanel.jsx:141-145 | a non-admin sends nothing; an admin requests the current view's list |
| AdminPanel.Panel.constructor | src/components/AdminPanel.jsx:274-276 | the panel opens on products and fetches them once, only for an admin |
| AdminPanel.Panel.FetchSettled | src/components/AdminPanel.jsx:159-174 | only the list of the fetched view is replaced; a failure shows the answer's error or "<endpoint> lekérési hiba." |
| AdminPanel.Panel.SelectView | src/components/AdminPanel.jsx:274-276 | switching to another view refetches; choosing the current one does not |
| AdminPanel.Panel.AfterMutation | src/components/AdminPanel.jsx:186-195 | a success refetches, a refusal alerts the answer's error or the fallback text, and a thrown error changes nothing |
| AdminPanel.Panel.DeleteProduct | src/components/AdminPanel.jsx:178-195 | nothing is sent without confirmation; otherwise a DELETE, then a refetch on success |
| AdminPanel.Panel.UpdateOrderStatus | src/components/AdminPanel.jsx:198-218 | a PUT with the chosen status, then a refetch on success |
| AdminPanel.Panel.UpdateUserRole | src/components/AdminPanel.jsx:221-246 | the admin's own id gets an alert and no request; any other id gets a PUT with the role, then a refetch on success |
| AdminPanel.Panel.DeleteUser | src/components/AdminPanel.jsx:249-272 | the own id is refused before any confirmation; otherwise nothing is sent unless confirmed; then a DELETE and a refetch on success |
| AdminPanel.Panel.OpenCreateModal | src/components/AdminPanel.jsx:279-282 | a new product starts from the blank form with price 0 and stock 0 |
| AdminPanel.Panel.OpenEditModal | src/components/AdminPanel.jsx:283-286 | an edit starts from the product's stored fields |
| AdminPanel.Panel.SubmitProduct | src/components/AdminPanel.jsx:16-52 | the form is sent as PUT or POST; a success closes it and refetches, raising the loading flag and clearing the error; a failure keeps it open with the error text for editing or creating, and leaves the list state alone |
| Harvest.HarvestGame.constructor | src/components/HarvestSimulation.jsx:51-57 | the game starts at step 1 with every counter zero |
| Harvest.HarvestGame.GrapeDragEnd | src/components/HarvestSimulation.jsx:232-239 | only in step 1 and only past 100 pixels down: the grape is in the basket and a move to step 2 is scheduled |
| Harvest.HarvestGame.BasketDragEnd | src/components/HarvestSimulation.jsx:334-341 | only in step 2 and only past 150 pixels left and 80 down: the grape is in the vat and a move to step 3 is scheduled |
| Harvest.HarvestGame.CrushClick | src/components/HarvestSimulation.jsx:71-82 | counts only in step 3 and below 20; the twentieth click schedules step 4 |
| Harvest.HarvestGame.BarrelCheck | src/components/HarvestSimulation.jsx:85-96 | counts only in step 4 and below 15; the fifteenth check schedules step 5 |
| Harvest.HarvestGame.BottleClick | src/components/HarvestSimulation.jsx:99-114 | only the next bottle in step 5 counts; the third schedules the celebration |
| Harvest.HarvestGame.FireTimer | src/components/HarvestSimulation.jsx:60-68 | a scheduled step change moves the step by at most one, and the counters stay consistent with the step |
| Harvest.HarvestGame.Reset | src/components/HarvestSimulation.jsx:157-165 | from the celebration, the game returns to its initial state |
| Harvest.ReplaceFirstAfter | src/components/HarvestSimulation.jsx:172 | replacing the first occurrence of a marker replaces the one after a prefix that does not contain the marker's first character |
| Harvest.InstructionText | src/components/HarvestSimulation.jsx:168-178 | steps 3 and 4 show their live counter in place of the marker; the others show the instruction as written |
| Harvest.CrushInstructionShowsCount | src/components/HarvestSimulation.jsx:171-172 | the digits in the crush instruction read back as the click count, and different counts give different texts |
| Harvest.ProgressCountsStep | src/components/HarvestSimulation.jsx:596-604 | exactly as many progress marks are lit as the current step number |
| Feedback.StarDisplay | src/components/FeedbacckSystem.jsx:53-72 | star k is lit exactly when k is at most the rating, so min(rating, 5) stars are lit |
| Feedback.OverallRatingMatchesSamples | src/components/FeedbacckSystem.jsx:187-189 | the fixed "4.3 / 5 (6 vélemény alapján)" header agrees with the six sample ratings |
| Feedback.ThanksTextShowsRating | src/components/FeedbacckSystem.jsx:120-123 | the thank-you text names the submitted rating, readable back from its digits |
| Feedback.RatingWidget.constructor | src/components/FeedbacckSystem.jsx:105-107 | no rating, no hover, no message |
| Feedback.RatingWidget.CurrentRating | src/components/FeedbacckSystem.jsx:109 | the hovered star wins while there is one, else the chosen rating |
| Feedback.RatingWidget.SelectionStars | src/components/FeedbacckSystem.jsx:139-141 | as many selection stars are lit as the current rating |
| Feedback.RatingWidget.ClickStar | src/components/FeedbacckSystem.jsx:147 | a click chooses that star's rating |
| Feedback.RatingWidget.HoverStar | src/components/FeedbacckSystem.jsx:148 | hovering sets the hover rating |
| Feedback.RatingWidget.LeaveStar | src/components/FeedbacckSystem.jsx:149 | leaving a star falls back to the chosen rating |
| Feedback.RatingWidget.Submit | src/components/FeedbacckSystem.jsx:111-129 | without a rating only an error message; with one a thank-you naming it and a reset timer |
| Feedback.RatingWidget.ResetFires | src/components/FeedbacckSystem.jsx:125-128 | the timer clears the rating and the message |

## Left out

- The PayPal SDK, nodemailer, bcrypt, jsonwebtoken, the MongoDB connection and the product and user schemas in `backend/models/` are not part of this model. Their results are parameters.
- The HTML of the e-mails and the text formatting of the PayPal request (`toLocaleString`, `toFixed`). The model keeps only which fields these read, since a missing one throws.
- `GET /api/products` (backend/server.js:149-158): it returns the whole collection, the same as `AdminController.GetAllProducts` without the role check.
- Database failures inside the controllers' `try` blocks. Each handler's catch branch is modelled only for the errors the model can name: a malformed id, a duplicate email, and a schema refusal.
- An ObjectId given as 12 raw bytes, and upper-case hex digits. `IsObjectId` accepts 24 lower-case hexadecimal characters, the form of every stored id and every token id. An id in upper case is cast by the driver to the same ObjectId as its lower-case form, so the handlers would find that document; the model answers it as a malformed id instead.
- A client-supplied `_id` in the order body: the stored id is always the one MongoDB assigns.
- Mongoose's cast of a non-ObjectId `customerId` key in the user's order query is modelled as a comparison with the raw text.
- The `populate` of the admin order list.
- Fractions, precision and `Infinity` of JavaScript numbers: prices and quantities are integers or NaN.
- React's rendering, its stale closures and its batching of state updates: each handler reads the state as it is when it runs, and timers are explicit steps.
- Layout and animation code, the title and description texts of the harvest steps, and the sample reviews' names and texts.
- Network failures and unparsable JSON on the client: they are a thrown message.
- `localStorage`, `window.location`, `document.body` classes and `console` logging.
- The last-write-wins race between the payment callback and an admin status change: each handler runs to completion.
- UserController.ChangePassword: `backend/models/User.js` is not part of this model, so the stored password is `saveHook(hash(newPassword))` for an unknown pre-save hook. `UserController.ChangePasswordThenLogin` shows that the new password logs in exactly when the comparison accepts that value. That holds if the hook leaves an already hashed password alone, and fails if the hook hashes it again. Whether `findById` without `.select("+password")` returns the stored hash is the parameter `hashLoaded`. The login handler selects the hash explicitly and notes that without it the field is undefined (backend/controllers/authController.js:52-60). That suggests the schema hides it, in which case every password change ends in the 500 branch.
- Server.StampedOrder: a missing `customer` stays absent, where the server stores the empty object. Both read the same in the handlers: only `customer.name` and `customer.email` are read, and both are undefined either way.
- AdminPanel.Panel.constructor: a session without a user is not modelled; the panel reads `user.token` during rendering and fails before its own role check.
- Harvest.HarvestGame.Reset: requires the celebration overlay, the only place its button is shown; the model does not consider timers still pending at a reset, since none can be pending then.
- WineStore.Storefront.Submit: a second submission while the first is in flight is not modelled; each submission settles before the next.
