# Ecom shop: a Dafny model of its controllers, models and middleware

This project models the core of the Ecom shop, an Express/Mongoose web shop.
The database is replaced by one in-memory `Store.Database` object with four
fields:

- `products`: products by id;
- `carts`: carts keyed by the owning user's id, so a user has at most one cart;
- `orders`: the orders in creation order;
- `users`: the users in insertion order.

Each request handler becomes a method that `modifies` the database. Its
postcondition ties the reply and the new state to pure functions of the old
state. Those functions carry the lemmas that state what the shop promises.

The model covers:

- **Checkout and orders.** `createOrder` walks the requested lines in order.
  It reads each product, checks its stock, snapshots the line and saves the
  decremented product. `getSingleOrder`, `getMyOrders` and `getAllOrders` read
  the orders; the last one also sums their totals. `updateOrderStatus` is a
  two-state machine whose `downloaded` state is absorbing.
- **Carts.** The handlers are `addToCart`, `getCart`, `updateCartItem`,
  `removeFromCart` and `clearCart`. The cart schema checks every line and the
  pre-save hook recomputes `total = Σ price × quantity` at current prices.
- **Products and reviews.** `createProduct` maps uploaded files to image
  entries; `updateProduct` builds its payload key by key. Reviews are upserted
  one per user and deleted per user. The pre-save hook derives `ratings` and
  `numReviews`, and `calculateAverageRating` is kept in tenths of a star.
- **Accounts.** The handlers are `register` (duplicate check and role rule),
  `login`/`logout`, `updateProfileImage`, `updatePassword` and
  `resetPassword`. The user model contributes its setters, validators, the
  hash-on-modify hook, `comparePassword` and the ten-minute reset token.
- **Validators.** The Joi schemas for orders, accounts and products are
  predicates over JSON request bodies.
- **Middleware.** This covers where `authMiddleware` takes its token from,
  the `authorizeRoles` gate, the multer file name and file filter, the error
  middleware's table, and the `ErrorHandler` constructor.

JavaScript's coercions are modelled explicitly in module `Js`: truthiness,
`Number(x)`, `Number(x) || d`, `String(x)` and comparisons with NaN. Mongoose's
casts to Number and String paths are modelled there too.

Libraries whose behaviour is not part of the shop are parameters:

- Joi's `email()` rule (`isEmail`);
- the user schema's e-mail regular expression (`emailPattern`);
- `JSON.parse` (`parse`);
- `jwt.verify` and `User.findById` in the authentication middleware;
- the platform path separator (`sep`).

The clock (`now`) and the ids the database assigns are parameters as well.
bcrypt and SHA-256 are ideal hashes: a hash is its input, wrapped, so two
hashes are equal exactly when their inputs are.

Four facts about the code shape the model:

- a failed checkout does not give back stock already taken;
- stock is not reserved atomically;
- a cart has no cap on its number of lines;
- the order status defaults to `downloaded`.

The findings below record those that are evidently unintended.

## Model

| member | source | states |
|---|---|---|
| Text.Utf16Length | validators/authValidator.js:4 | A string's JavaScript length counts UTF-16 code units. That is between its number of characters and twice it: equal to it without characters outside the Basic Multilingual Plane, and twice it when all characters are outside. |
| Joi.JoiNumber | validators/productValidation.js:11-14 | `Joi.number()` accepts a number as itself exactly when it is a safe integer (within ±(2^53−1)), and otherwise only text; every accepted value is a safe integer. |
| Joi.JoiNumberOfText | validators/orderValidation.js:7 | A safe integer, or its decimal text, passes `Joi.number()` as that number; beyond ±(2^53−1) both forms are refused as unsafe. |
| AuthValidator.PasswordChange | validators/authValidator.js:9-13 | A valid password-change body has a 4..12-character new password, a confirmation equal to it and, when the old password is required, a valid old password. |
| AuthValidator.MismatchExactly | validators/authValidator.js:9-13 | Once the earlier fields are valid, the verdict is 'Passwords do not match' exactly when the confirmation differs from the new password. |
| AuthValidator.RegisterRoles | validators/authValidator.js:22-31 | Registration accepts a body without a role, refuses any role other than user/admin, and refuses a nine-digit phone. |
| AuthValidator.ProfileUpdateSubsets | validators/authValidator.js:16-20 | A profile update may be empty; a key other than name, email and phone makes it fail. |
| AuthValidator.PasswordBounds | validators/authValidator.js:4 | Passwords are 4 to 12 UTF-16 code units long: 4 to 12 characters of the Basic Multilingual Plane, or 2 to 6 characters from outside it. |
| AuthValidator.NameBounds | validators/authValidator.js:17-24 | Names are 3 to 50 code units long: 3 to 50 Basic Multilingual Plane characters, or 2 to 25 emoji-like characters from outside it. |
| OrderValidation.RequestLines | validators/orderValidation.js:4-9 | A valid body yields one line per item, each with a product and a quantity of at least 1. |
| OrderValidation.RequestAddress | validators/orderValidation.js:10-16 | A valid body yields an address that passes the order model's required-field checks. |
| OrderValidation.ItemsRequiredButMayBeEmpty | validators/orderValidation.js:3-22 | `items` is required but may be empty; `paymentInfo` is optional; an unknown key is refused. |
| OrderValidation.ValidBodyShape | validators/orderValidation.js:4-15 | In a valid body every line has a product and a quantity ≥ 1, the pin code has 6 characters and the phone 10. |
| OrderValidation.BadItemRejected | validators/orderValidation.js:5-8 | One item without a product, or with quantity 0, makes the whole body invalid. |
| ProductValidation.SchemaPresence | validators/productValidation.js:26-33 | Create requires all eight keys. Update refuses an empty payload and one with only unknown keys, and accepts any single valid field. |
| ProductValidation.SectionsNeedPoints | validators/productValidation.js:4-7 | A description entry needs a title and at least one point. |
| ProductValidation.StockNeedsNumber | validators/productValidation.js:14 | Stock sent as a word that does not start with a digit or a sign fails. |
| ProductValidation.StockTakesNumbers | validators/productValidation.js:14 | Stock, as a whole number or as its decimal text, is accepted exactly when it is a safe integer. |
| ProductValidation.StrictImpliesLenient | validators/productValidation.js:9-33 | Whatever passes a field of the strict create schema also passes the lenient update schema. |
| ProductModel.AverageRatingTenths | models/productModel.js:77-81 | The average is 0 with no reviews; otherwise it is the mean rating rounded to the nearest tenth, halves up. |
| ProductModel.AverageInRange | models/productModel.js:45-50 | With every rating in 1..5 the average lies in 1..5 stars, inside the range `ratings` allows. |
| ProductModel.PreSave | models/productModel.js:84-90 | When the reviews changed, `numReviews` becomes their count and `ratings` their average; otherwise the document is unchanged. Reviews, price, stock and name are kept either way. |
| ProductModel.Save | models/productModel.js:25-58 | A save succeeds exactly when the document passes the validators, which require non-negative price and stock. |
| ProductModel.SaveAsIs | models/productModel.js:84-90 | A save that does not touch the reviews stores the document as it is, and it is valid. |
| ProductModel.PreSaveKeepsValid | models/productModel.js:45-50 | A valid product with ratings in 1..5 is still valid after the hook. |
| CartModel.CartTotal | models/cartModel.js:33-38 | The total exists exactly when every line's product exists; an empty cart totals 0. |
| CartModel.TotalDependsOnPrices | models/cartModel.js:33-38 | The total depends only on the lines and their products' prices. |
| CartModel.TotalOfAppend | models/cartModel.js:33-38 | Appending a line adds its price × quantity to the total. |
| CartModel.SaveCart | models/cartModel.js:3-38 | A save succeeds exactly when every quantity is at least 1 and every product exists; it keeps the lines and stores their total. |
| CartModel.SaveEmpty | models/cartModel.js:24-27 | An emptied cart always saves, with total 0. |
| OrderModel.StatusNames | models/orderModel.js:52-57 | The status enum admits exactly 'pending' and 'downloaded', and a status and its name determine each other. |
| OrderModel.ItemsTotalAppend | models/orderModel.js:48-51 | The total of a concatenation of lines is the sum of the parts' totals. |
| UserModel.ParseRole | models/userModel.js:38-45 | The role enum admits 'user' and 'admin' only, each mapping back to its name. |
| UserModel.NormalizeEmail | models/userModel.js:13-20 | A stored e-mail is trimmed and lower-cased, and never longer than the input. |
| UserModel.NormalizeIdempotent | models/userModel.js:13-20 | Normalising twice is normalising once, so a stored address is found again by a query with itself. |
| UserModel.SaveUser | models/userModel.js:62-66 | A save validates the document and any new plain password. Only a new password is hashed; otherwise the document is stored unchanged. |
| UserModel.HashOnlyWhenModified | models/userModel.js:62-71 | After a save that set a password, exactly that password matches; a save that set none keeps the old hash. |
| UserModel.IssueResetToken | models/userModel.js:74-82 | The issued token is returned. The document keeps only its digest, and an expiry 600000 ms after now; nothing else changes. |
| UserModel.ResetTokenWindow | models/userModel.js:74-82 | An issued token is accepted exactly when it is presented before the expiry; no other token is accepted. |
| Auth.BearerTokenIsSecondSegment | middlewares/auth.js:14-15 | For a header 'Bearer t', the token is t, whatever the cookie holds. |
| Auth.BareBearerHasNoToken | middlewares/auth.js:14-15 | A header 'Bearer' with no second segment gives an undefined token. |
| Auth.CookieFallback | middlewares/auth.js:16-23 | Without a Bearer header the jwt cookie is used; with neither there is no token. |
| Auth.Authenticate | middlewares/auth.js:10-44 | Every refusal is a 401; no token at all gives 'No token provided, authorization denied'. |
| Auth.AuthenticateSucceeds | middlewares/auth.js:25-43 | `next` is called exactly when a token was found, it verifies and its user exists; the user passed on is the one found for the token's id. |
| Auth.AuthorizeRoles | middlewares/auth.js:51-60 | Every refusal is a 403. |
| Auth.AuthorizeRolesDecides | middlewares/auth.js:51-60 | The gate passes exactly when the role is non-empty and allowed; a refusal names the role, or 'none'. |
| Upload.StoredFilenameParts | middlewares/upload.js:12-17 | A stored name is the field name, a dash, digits that read back as the timestamp, then the extension. |
| Upload.FilterRejectionRaises | middlewares/upload.js:23-33 | As written, a file of a type not listed makes the filter throw a ReferenceError instead of answering 400. |
| Upload.FileFilterDecides | middlewares/upload.js:5-33 | With `ErrorHandler` in scope, the filter accepts exactly the listed types that are not known to exceed 5 MiB, checking the type first, and every refusal is a 400. multer calls it before the size is known, so in practice it decides on the type alone and its size refusal never happens. |
| Upload.ReceiveFile | middlewares/upload.js:36-47 | multer's own limit stops exactly the files over the configured size, with its 'File too large' error. |
| Upload.OversizedIsServerError | middlewares/upload.js:36-47 | A file over 5 MiB is stopped by multer's limit, not by the filter. The error middleware does not know multer's error and it carries no status, so the reply is a 500 'File too large'. |
| Upload.UploadConfigurations | middlewares/upload.js:36-47 | Profile uploads take one 'profileImage' into uploads/users; product uploads take up to ten 'productImages' into uploads/products; both limit files to 5 MiB. |
| ErrorHandler.StatusCodeOf | utils/errorHandler.js:11-16 | The status code is never 0. |
| ErrorHandler.NewErrorHandler | utils/errorHandler.js:11-17 | A constructed error never has status code 0. |
| ErrorHandler.MessageNormalised | utils/errorHandler.js:12-15 | A string message is kept; undefined becomes 'undefined' and the number 404 becomes '404'. |
| ErrorHandler.StatusFromNumber | utils/errorHandler.js:16 | A status code whose `Number` is a non-zero n becomes n. |
| ErrorHandler.StatusFromText | utils/errorHandler.js:16 | The status code '404' sent as text becomes 404. |
| ErrorHandler.StatusDefaults | utils/errorHandler.js:11-16 | A missing, zero, null or non-numeric status code becomes 500. |
| ErrorMiddleware.StatusOrDefault | middlewares/error.js:5 | A missing or zero status becomes 500; any other status is kept. |
| ErrorMiddleware.HandleError | middlewares/error.js:3-33 | The reply includes the stack exactly in development, and never has status 0 or an empty message. |
| ErrorMiddleware.UnknownErrorKept | middlewares/error.js:5-6 | An error of unknown name keeps its own status and message, with 500 and 'Internal Server Error' as defaults. |
| ErrorMiddleware.KnownErrorStatuses | middlewares/error.js:9-13 | CastError becomes 400, the two token errors 401, and ValidationError 400 with its own message. |
| ErrorMiddleware.DatabaseErrors | middlewares/error.js:14-18 | MongoServerError becomes 400. Code 11000 names the duplicated keys; any other code gets 'Database error occurred'. |
| OrderController.TakeLineShape | controllers/orderController.js:21-39 | A taken line had enough stock; only its product's stock drops, by the quantity, and stays ≥ 0. The line snapshots the name and the current price. |
| OrderController.CheckoutStock | controllers/orderController.js:20-40 | On success every product's stock drops by exactly its total demand and stays ≥ 0; nothing else about any product changes. |
| OrderController.CheckoutItems | controllers/orderController.js:17-35 | On success the order lines follow the request one for one, each snapshotting name and price, and the total is Σ price × quantity. |
| OrderController.CheckoutStoppedKeepsDecrements | controllers/orderController.js:20-40 | When checkout stops, every product keeps its other fields and has at most lost stock. The stored catalogue still lacks exactly the stock of the lines taken before the stop: giving those back would restore the original. |
| OrderController.NoRollbackExample | controllers/orderController.js:20-40 | Concretely: two units of 'a' taken, then a missing 'b', give a 404 with a's stock left at 3 instead of 5. |
| OrderController.ReleaseRestores | controllers/orderController.js:20-40 | Giving back the taken lines restores the catalogue a stopped checkout started from. |
| OrderController.CheckoutWithReleaseAtomic | controllers/orderController.js:20-40 | With compensation, a stopped checkout leaves the catalogue unchanged and a successful one is as before. |
| OrderController.TakeLines | controllers/orderController.js:20-40 | The loop leaves the catalogue as the checkout run does, succeeds exactly when the run does, and returns its lines and total or its refusal. |
| OrderController.CreateOrder | controllers/orderController.js:9-61 | A body failing the schema is a 400 and changes nothing. Otherwise the catalogue follows the checkout run. A stop returns its error and leaves carts and orders alone. A success appends the new order, with 201, and deletes only the caller's cart. |
| OrderController.PlacedOrderValid | controllers/orderController.js:42-49 | Every order checkout creates passes the order schema. |
| OrderController.GetSingleOrder | controllers/orderController.js:63-79 | The reply is the order with that id, or 404 exactly when there is none. |
| OrderController.GetMyOrders | controllers/orderController.js:81-92 | The reply holds exactly the caller's orders. |
| OrderController.MyOrdersAppend | controllers/orderController.js:81-92 | A new order extends its owner's reply at the end and leaves every other user's reply unchanged, so the reply keeps creation order. |
| OrderController.MyOrdersMultiplicity | controllers/orderController.js:81-92 | Each of the caller's orders appears in the reply as often as it is stored; no other order appears. |
| OrderController.SumTotalsReverse | controllers/orderController.js:96-102 | The sum of the totals does not depend on the list's order. |
| OrderController.GetAllOrders | controllers/orderController.js:96-112 | All orders are returned newest first, with the sum of every order's total. |
| OrderController.StatusUpdate | controllers/orderController.js:122-132 | A downloaded order is refused with 400. Otherwise only status and `deliveredAt` may change, and `deliveredAt` is set exactly when 'downloaded' is requested. A missing status falls back to the default; 'downloaded' on a pending order succeeds with `deliveredAt` set to now; a name outside the enum, or a value that is neither text nor null, fails the save with 500. |
| OrderController.DownloadedAbsorbs | controllers/orderController.js:122-124 | Once an update has set 'downloaded', every later update is refused. |
| OrderController.StatusStaysInEnum | models/orderModel.js:52-57 | After any successful update the status is 'pending' or 'downloaded'. |
| OrderController.UpdateOrderStatus | controllers/orderController.js:114-141 | An unknown id is a 404. Otherwise the reply is the status update of the first order with that id, in every case. A success replaces that order with the result; a failure changes nothing. |
| OrderController.CreatedOrdersAreFinal | models/orderModel.js:56 | A new order already has the absorbing status 'downloaded', so no update can move it. |
| OrderController.NewPendingOrder | models/orderModel.js:52-57 | The intended new order is 'pending' with no delivery time, and otherwise equal to the order checkout creates. |
| OrderController.PendingOrderDeliversOnce | controllers/orderController.js:122-130 | A pending order is delivered once, which sets the status and the delivery time; every later update is refused. |
| CartController.CartOf | controllers/cartController.js:61-66 | A user without a cart sees no lines and total 0; otherwise they see their own cart. |
| CartController.SetLineSpec | controllers/cartController.js:27-40 | The quantity is set, not added to. The first line for the product is overwritten in place, so the list keeps its length exactly when the product was listed. Otherwise the line is appended at the end. Other lines stay in place, and distinct products and valid lines are kept. |
| CartController.AddQuantityDefaults | controllers/cartController.js:8 | A missing, zero or non-numeric quantity becomes 1; any other number is taken as it is. |
| CartController.AddQuantityText | controllers/cartController.js:8 | Text that `Number` reads as a non-zero n is taken as n. |
| CartController.AddToCart | controllers/cartController.js:5-54 | Checks run in source order: missing product id 400, quantity below 1 400, unknown product 404, too little stock 400. Each refusal leaves the carts unchanged. Otherwise the set line is saved into the caller's cart, or a failed save is a 500. |
| CartController.AddToCartOutcome | controllers/cartController.js:27-42 | After a successful add, the product's first line is overwritten in place, or a line is appended when the product had none; the length changes exactly in the second case. Other lines are kept, the total matches current prices, and no product appears twice if none did. |
| CartController.FindLine | controllers/cartController.js:86-93 | A line is found only for a string id equal to its product; otherwise no line has that product. |
| CartController.UpdateCartItem | controllers/cartController.js:78-121 | Checks run in source order: guard 400, no cart 404, product not in the cart 404, product gone 500, too little stock 400. Otherwise only that line's quantity, as Mongoose casts it, is saved. Every failure leaves the carts unchanged. |
| CartController.UpdateTouchesOneLine | controllers/cartController.js:96-106 | A quantity that passes the guard is at least 1. A successful update changes only that line's quantity. |
| CartController.ZeroNeverReachesSplice | controllers/cartController.js:82-84 | Quantity 0 is always refused by the guard, so the removal branch cannot run. |
| CartController.IntendedZeroRemoves | controllers/cartController.js:99-100 | With the intended guard, quantity 0 gets through and removes the product's line, keeping the others in order. |
| CartController.WithoutProductSpec | controllers/cartController.js:127-134 | Removal drops every line for the product and no other, in order. Removing an absent product changes nothing, and valid lines stay valid. |
| CartController.RemoveFromCart | controllers/cartController.js:123-148 | No cart is a 404. Otherwise the filtered lines are saved even if the product was absent, and only the caller's cart changes. |
| CartController.ClearCart | controllers/cartController.js:150-169 | No cart is a 404. Otherwise the cart is kept, with no lines and total 0. |
| ProductController.JoiNumberCasts | validators/productValidation.js:11-14 | A number the schema accepted is cast by Mongoose to the same number. |
| ProductController.ParsedField | controllers/productController.js:61-70 | Only string fields are parsed as JSON, and the parse fails exactly when `JSON.parse` throws. |
| ProductController.CreatePayload | controllers/productController.js:73-78 | The payload holds only schema keys, carries the caller as `createdUser`, and has a description or faqs exactly when they were given. |
| ProductController.CreatePayloadCopies | controllers/productController.js:50-74 | Name, price, category, brand and stock are copied from the body as they are. |
| ProductController.ImagesOf | controllers/productController.js:89-92 | Files map in order to url '/uploads/products/<name>', with the name as public id. |
| ProductController.CreatedProduct | controllers/productController.js:89-99 | A created product is valid, has the uploaded images in order, no reviews, rating 0, the trimmed name and the caller as creator. |
| ProductController.CreatedProductNumbers | controllers/productController.js:94-99 | A created product has the price and stock the schema accepted. |
| ProductController.NegativePriceFailsOnSave | controllers/productController.js:80-104 | The schema lets a negative price through; the model's validator refuses it, so the reply is a 500 rather than a 400. |
| ProductController.CreateReplySpec | controllers/productController.js:53-100 | No files is a 400 whatever else the body holds. A stored product is valid, has the uploaded images, no reviews and rating 0, and is created by the caller. |
| ProductController.CreateReplyAfterChecks | controllers/productController.js:88-108 | Past the file, JSON and schema checks, the reply is the save's outcome: 201 with the product, or 500. |
| ProductController.CreateProduct | controllers/productController.js:48-110 | The reply is the create reply. Only a 201 adds the product, under the new id. |
| ProductController.FieldValue | controllers/productController.js:148-160 | Keys other than description and faqs, and non-string values, are copied as they are. |
| ProductController.BuildUpdatePayload | controllers/productController.js:145-160 | The loop succeeds exactly when every description/faqs text parses, and then holds exactly the body's keys with their values. Otherwise it stops at the first key that fails. |
| ProductController.ApplyUpdate | controllers/productController.js:176-180 | `$set` changes only the fields given. Price and stock are stored as the schema read them and the name trimmed; absent name, price, stock, description and FAQs are kept. Reviews, ratings, count and images are always kept. |
| ProductController.UpdateSetsText | controllers/productController.js:176-180 | Category, brand and creator are stored as sent when given, and kept otherwise. |
| ProductController.UpdateSetsSections | controllers/productController.js:148-160 | A given description or FAQ list replaces the stored one entry by entry, in the order sent. Description titles and points are trimmed; FAQ answers are stored as sent. |
| ProductController.UpdateSkipsValidators | controllers/productController.js:176-180 | As written, an update to price -5 passes the schema and is stored, leaving a product the model's validators would refuse. |
| ProductController.ApplyUpdateValidated | models/productModel.js:27-38 | With validators run, an update is stored exactly when the result is valid. |
| ProductController.ValidatedUpdateRefusesNegativePrice | models/productModel.js:27-31 | With validators run, the update to price -5 is refused. |
| ProductController.UpdateProduct | controllers/productController.js:142-196 | Text that is not JSON is a 500 naming the first key that fails. Given the built payload, a schema refusal is a 400 with the schema's message, then an unknown id is a 404 "Product not found", and otherwise the reply is a 200 with the payload applied to the old product, which is stored. Every failure changes nothing. |
| ProductController.AcceptedRatingInRange | controllers/productController.js:246-251 | A numeric rating that passes the guard lies in 1..5. |
| ProductController.UpsertSpec | controllers/productController.js:263-279 | The caller's first review is replaced in place, so the list keeps its length exactly when the caller had one. Otherwise the review is appended at the end. Others stay put, one review per user is kept, and so are ratings in 1..5. |
| ProductController.CreateProductReview | controllers/productController.js:242-296 | A rejected rating is a 400 and an unknown product a 404. A non-numeric rating or a missing comment is a 500. Otherwise the upserted reviews are saved with recomputed ratings; a failure changes nothing. |
| ProductController.ReviewSaved | controllers/productController.js:263-281 | On a valid product a good review is saved; the count and average then describe the new list and the product stays valid. |
| ProductController.WithoutReviewsSpec | controllers/productController.js:342-344 | Deletion drops every review by the caller and no other, in order; with none by the caller nothing changes. |
| ProductController.DeleteReview | controllers/productController.js:330-361 | An unknown product is a 404. Otherwise the filtered reviews are saved, with ratings recomputed only when the list changed. |
| ProductController.DeleteRecomputes | controllers/productController.js:342-346 | After a deletion that changed the list, no review is by the caller, and the count and average describe the rest. |
| UserController.IndexOfId | controllers/userController.js:174-179 | `findById` finds a user with that id, or none exists. |
| UserController.FindDuplicate | controllers/userController.js:32-34 | The duplicate lookup finds a user whose stored e-mail is the normalised address or whose phone matches, and finds none exactly when no such user exists. |
| UserController.RegisterRole | controllers/userController.js:43-45 | The first user is an admin; later users get the role they asked for, or 'user'. |
| UserController.NewUser | models/userModel.js:7-45 | A new user has the trimmed name, the normalised e-mail, the phone as sent and the chosen role; they are logged out, with no image and no reset token. |
| UserController.Register | controllers/userController.js:21-65 | A schema failure is a 400 and a duplicate a 400 with the message as written. A failed save is a 500. Otherwise the new user is appended with 201. A failure changes nothing. |
| UserController.RegisteredIsNew | controllers/userController.js:32-54 | A registered user shares neither e-mail nor phone with earlier users, is valid, and only their own password matches. |
| UserController.DuplicateMessageNamesWrongField | controllers/userController.js:36-40 | As written, 'A@b.co' matches the stored 'a@b.co' by e-mail, but the reply says the phone number is registered. |
| UserController.IntendedDuplicateMessage | controllers/userController.js:36-40 | The intended message says 'Email already registered' exactly when the stored e-mail is the normalised address. |
| UserController.IntendedDuplicateMessageNamesField | controllers/userController.js:32-40 | With the intended comparison, the reply names the e-mail exactly when the duplicate matched by e-mail, and otherwise the phone. |
| UserController.FindByLogin | controllers/userController.js:77 | The login lookup finds a user whose e-mail or phone is the login string, and finds none exactly when no such user exists. |
| UserController.Login | controllers/userController.js:68-102 | A schema failure is a 400; an unknown login or a wrong password is a 401. Otherwise the user is saved with the flag set (a failed save is a 500). A failure changes nothing. |
| UserController.LoginSucceedsOnlyWithPassword | controllers/userController.js:77-84 | A successful login is for a user matching the login string whose password is the one given; only the flag changes, to true. |
| UserController.Logout | controllers/userController.js:105-116 | An unknown user is a 404. Otherwise only that user's flag is cleared, without validation. |
| UserController.ImagePathReplaces | controllers/userController.js:194 | The stored path is the upload path with every separator replaced by '/', and no separator is left. |
| UserController.UploadProblem | controllers/userController.js:155-171 | A file is acceptable exactly when present, ≤ 5 MiB and of type jpeg, png or jpg; otherwise the first failing check's message is given. |
| UserController.StoreProfileImage | controllers/userController.js:173-210 | An unknown user is a 404. Otherwise the user is saved with the normalised path (a failed save is a 500). |
| UserController.UpdateProfileImage | controllers/userController.js:152-212 | An upload problem is a 400 with its message. Then come the user lookup and the save as above; every failure changes nothing. |
| UserController.ProfileImageOnlyChange | controllers/userController.js:193-195 | On success only the profile image changes, to the normalised path. |
| UserController.UpdatePassword | controllers/userController.js:215-243 | A schema failure is a 400 (the mismatch message for a mismatch), an unknown user 404, a wrong old password 400. Otherwise the new password is saved (a failed save is a 500). |
| UserController.PasswordChanged | controllers/userController.js:225-236 | After a change only the new password matches; it was confirmed and is 4 to 12 UTF-16 code units long. |
| UserController.FindByResetToken | controllers/userController.js:302-310 | The reset lookup finds a user whose digest matches and whose expiry is after now, and finds none exactly when no such user exists. |
| UserController.ResetPassword | controllers/userController.js:289-330 | A schema failure is a 400, and so is a token that is unknown or expired. Otherwise both reset fields are cleared and the new password saved (a failed save is a 500). |
| UserController.ResetIsOneShot | controllers/userController.js:307-321 | A token issued at t works only before t + 600000 ms and cannot be used twice. Afterwards only the new password matches. |

## Left out

- Concurrency: each handler is one sequential step. Interleaved requests and their lost updates are not modelled.
- Floating point: prices, quantities, stock and ratings are whole numbers. The order schema admits fractional quantities and Joi admits fractional prices; `Math.round` on fractional averages is modelled exactly only for whole ratings, in tenths.
- The exact texts of Joi's and Mongoose's messages: a schema failure replies with `SchemaMessage`, a user save failure with `UserSaveMessage`, the cart's quantity check with `CartModel.QuantityMessage`, a failed number cast with `CartController.CastMessage`, a product save failure with `OrderController.ProductSaveMessage` and a status outside the enum with `OrderController.EnumMessage`, all as stand-ins; Mongoose's own texts name the path and value differently.
- CartModel.CartTotal: sums exactly, whereas JavaScript's double additions round once a running total exceeds 2^53; totals within the safe range agree.
- OrderModel.ItemsTotal: sums exactly, whereas JavaScript's double arithmetic rounds once a total exceeds 2^53; totals within the safe range agree.
- ObjectId cast errors: ids are strings, and a malformed id behaves like an unknown one. `updateProduct` is an exception: a `createdUser` that is not an ObjectId makes the source's `$set` fail its cast, which the catch answers with a 500, while `ProductController.ApplyUpdate` stores any string there.
- `populate` and the fields it adds; `sort('-createdAt')` in `getAllOrders` is taken as newest first, i.e. the reverse of insertion order.
- The `fs` unlinks in `updateProfileImage`, the old-image removal and file clean-up.
- JWT signing, cookies and the one-hour cookie expiry in `login` and `logout`.
- `forgotPassword`, which builds a URL and sends mail; only the token it issues (`UserModel.IssueResetToken`) is modelled.
- The watchlist handlers and model, which read a field the user schema does not declare.
- `adminDashboard` and `getAllUsers` (counts against wall-clock dates), `getUserDetails` and `deleteUser`.
- `updateProductImages`, which pushes onto a field the product schema does not declare.
- `getAllProducts`, `getSingleProduct`, `deleteProduct`, `getProductReviews`, `getProfile` and `updateProfile`: lookups and a profile update outside the modelled core.
- multer internals: the disk write, how multer counts bytes against its limit, and how `path.extname` splits a name (the extension is a parameter). Its limit is modelled only by its outcome (`Upload.ReceiveFile`).
- Trimming of the image url and public id by the product schema: the stored file names have no surrounding white space.
- An undefined request body, and a Mongoose `null` status distinguished from an unset one: both read back as the schema default.
- ProductController.ApplyUpdate: keys other than the eight request keys reach `$set` in the source but are not applied here.
- ProductController.ApplyUpdate: a `createdUser` that is not an ObjectId is stored as given, where the source's cast fails and the catch answers 500.
- CartController.AddQuantityText: stated for text that `Number` reads as a non-zero whole number rather than for every value.
- ErrorHandler.StatusFromText: stated for the text '404'; `ErrorHandler.StatusFromNumber` states the general case.
- Js.StringToNumber: reads only an optional sign and decimal digits after trimming. JavaScript's hexadecimal (`"0x10"`), exponent (`"1e1"`), `"Infinity"` and decimal-point forms give NaN here. So, for example, a quantity of `"1e1"` in `addToCart` reads as the default 1, and an error status of `"4e2"` reads as 500.
- Text.Trim: removes only ASCII white space, not U+00A0, U+FEFF, U+2028/U+2029 or the other Unicode space separators that JavaScript's `trim` removes.
- Text.ToLower: lower-cases only the letters A to Z. For addresses with other letters, this affects NormalizeEmail, FindDuplicate and FindByLogin.

## Findings

| source | as written | input that shows it | evidently intended | confidence | as-written member | corrected member |
|---|---|---|---|---|---|---|
| controllers/orderController.js:20-40 | A failed checkout keeps the stock already taken for earlier lines. | Product 'a' with stock 5; lines (a, 2), (b, 1), where 'b' is unknown. The reply is 404 and a's stock stays 3. | A failed checkout leaves the stock as it found it. | not executed | OrderController.NoRollbackExample | OrderController.CheckoutWithReleaseAtomic |
| models/orderModel.js:56 | The status defaults to 'downloaded', and checkout sets none, so every new order is already in the absorbing state. | Any order checkout creates; `updateOrderStatus` then answers 400 'Order has already been delivered'. | New orders start as 'pending' and can be delivered once. | not executed | OrderController.CreatedOrdersAreFinal | OrderController.PendingOrderDeliversOnce |
| controllers/cartController.js:82-84 | The guard refuses any falsy quantity, so the quantity-0 removal branch can never run. | Body {productId: 'p', quantity: 0}: 400 'Please provide product ID and valid quantity'. | Only a missing or negative quantity is refused, and 0 removes the line. | not executed | CartController.ZeroNeverReachesSplice | CartController.IntendedZeroRemoves |
| middlewares/upload.js:23-33 | The file filter uses `ErrorHandler` without importing it, so a rejection throws a ReferenceError instead of answering 400. | A file of type 'image/gif'. | A file of a type not listed is refused with 400 and the type message. | not executed | Upload.FilterRejectionRaises | Upload.FileFilterDecides |
| controllers/userController.js:36-40 | The duplicate message compares the stored, normalised e-mail with the address as sent. | Stored 'a@b.co' / '1111111111'; register with 'A@b.co' / '2222222222'. The match is by e-mail, but the reply is 'Phone number already registered'. | The reply names the e-mail whenever the match was by e-mail. | not executed | UserController.DuplicateMessageNamesWrongField | UserController.IntendedDuplicateMessageNamesField |
| controllers/productController.js:176-180 | `findByIdAndUpdate` runs without validators, so an update stores what the product schema forbids. | An update with price -5: the schema accepts it and the product is stored with price -5. | An update that leaves the product invalid is refused. | not executed | ProductController.UpdateSkipsValidators | ProductController.ValidatedUpdateRefusesNegativePrice |
