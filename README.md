# GrubDash controllers in Dafny

A model of the two controllers of the GrubDash restaurant API: the order store
(`src/orders/orders.controller.js`) and the dish store
(`src/dishes/dishes.controller.js`). Each controller keeps a module-level array
of records and exposes Express middleware that looks a record up by its route
id, validates the JSON request body, and handlers that append, overwrite or
(for orders) delete records in that array.

- `js.dfy` — module `Js`: the JavaScript values a JSON body can carry
  (`JsValue`) and the operations the controllers apply to them: truthiness
  (`!x`), property reads, destructuring with a `= {}` default, `Number.isInteger`
  and the string a template literal makes of a value.
- `middleware.dfy` — module `Middleware`: the `{status, message}` error object,
  the signals a middleware emits (`next()`, `next(error)`, a thrown TypeError),
  the required-field loop both validators run, and the `find`/`findIndex` by id.
- `orders.dfy` — module `Orders`: `orderExists`, `validateOrder` and
  `validateStatus` as decisions over the request; the `orders` array as the
  class `OrderStore` with `Create`, `Update` and `Destroy`.
- `dishes.dfy` — module `Dishes`: `dishExists` and `validateDish`; the `dishes`
  array as the class `DishStore` with `Create` and `Update`.

`validateOrder` and `validateDish` are each a specification function
(`OrderValidation`, `DishValidation`) and a method that runs the source's
loops (`ValidateOrder` with `CheckQuantities`, `ValidateDish`, both through
`FindMissingField`) proved equal to it. `validateStatus` has no loop and is a
function only.

`validateOrder` is modelled as written, and its result is a list of signals.
`return next(...)` inside the `dishes.forEach` callback only leaves the
callback. So every line item with a bad quantity gets its own 400, in
ascending position order, and `next()` is then called anyway
(`Orders.QuantitiesReported`, `Orders.PassesIffWellFormed`,
`Orders.ZeroQuantityStillPasses`). `validateStatus` judges the status the
request submits: setting `delivered` is refused, and an order that is already
delivered can still be moved to any other status. `create` stores the body's
`status` as it comes, unvalidated, and `undefined` when the body has none.

A `null` or `undefined` `data` makes `validateOrder` and `validateDish` throw
(`Thrown`): an undefined `data` passes the destructuring default but
`req.body.data[field]` then throws, and a null one fails the destructuring.
`validateStatus` throws only on a `null` `data`; an undefined one takes the
`= {}` default and gets the status 400. A `null` or `undefined` line item
throws at `dish.quantity`, which ends the signal list without `next()`.

## Model

| member | source | states |
|---|---|---|
| `Js.NatToString` | src/orders/orders.controller.js:50 | the text `${index}` makes of a line-item index: at least one decimal digit, no leading zero, and the digits read back as the index |
| `Middleware.FirstFalsy` | src/orders/orders.controller.js:30-37 | the index found is the first required field whose value is falsy, every earlier one is truthy; none is found exactly when all are truthy |
| `Middleware.FindMissingField` | src/dishes/dishes.controller.js:30-37 | the early-exit loop over the required fields returns exactly the first falsy field |
| `Middleware.FirstIndexOf` | src/orders/orders.controller.js:131 | findIndex by id: -1 exactly when no record has the id, otherwise the first position holding it |
| `Middleware.RemoveUnique` | src/orders/orders.controller.js:131-132 | splicing one position out of a store whose ids are unique removes that id entirely and keeps the ids unique |
| `Orders.OrderExists` | src/orders/orders.controller.js:13-24 | binds the first order whose id equals the route id, and binds exactly when one exists; otherwise 404 "Order does not exist: <orderId>" |
| `Orders.QuantityRejected` | src/orders/orders.controller.js:47 | a quantity is rejected exactly when it is not a positive integer number |
| `Orders.QuantityErrorNamesIndex` | src/orders/orders.controller.js:50 | the quantity message is "Dish ", the item's index in decimal digits, and the fixed tail; the digits read back as the index |
| `Orders.QuantityErrorInjective` | src/orders/orders.controller.js:50 | two line items at different positions never get the same quantity message |
| `Orders.QuantitySignals` | src/orders/orders.controller.js:46-55 | the `forEach` and the `next()` after it emit at least one signal; every signal but the last is a 400; the last is `next()` when no line item from here on is null or undefined, and the throw otherwise |
| `Orders.RejectedIndices` | src/orders/orders.controller.js:46-53 | the positions of rejected line items: strictly ascending, each one rejected, and every rejected position listed |
| `Orders.QuantitySignalsExact` | src/orders/orders.controller.js:46-55 | with no null line item, the loop emits one 400 naming each rejected position, ascending, then `next()` |
| `Orders.QuantitySignalsBeforeThrow` | src/orders/orders.controller.js:46-53 | when item p is the first null or undefined one, the loop emits one 400 per rejected item before p, ascending, and then throws |
| `Orders.CheckQuantities` | src/orders/orders.controller.js:46-55 | the loop over the line items emits exactly the signals `QuantitySignals` specifies |
| `Orders.OrderValidation` | src/orders/orders.controller.js:26-56 | at least one signal; a null or undefined `data` gives only the throw; every signal but the last is a 400; a last signal that is a 400 is the only signal |
| `Orders.ValidateOrder` | src/orders/orders.controller.js:26-56 | the middleware's loops emit exactly the signals `OrderValidation` specifies |
| `Orders.MissingFieldReported` | src/orders/orders.controller.js:28-37 | fields are checked in the order deliverTo, mobileNumber, dishes; the first falsy one gives the single 400 "Order must include a <field>" |
| `Orders.NoDishesReported` | src/orders/orders.controller.js:39-44 | with the fields present, a non-array or empty `dishes` gives the single 400 "Order must include at least one dish" and no quantity is checked |
| `Orders.QuantitiesReported` | src/orders/orders.controller.js:46-55 | a body that passes the field and array checks gets one 400 per rejected line item in ascending order, followed by `next()` |
| `Orders.PassesIffWellFormed` | src/orders/orders.controller.js:26-56 | `next()` is emitted exactly when data is present, the three fields are truthy, dishes is a non-empty array and no item is null, whatever the quantities; it is then the last signal |
| `Orders.ZeroQuantityStillPasses` | src/orders/orders.controller.js:46-55 | one line item of quantity 0 yields the 400 naming item 0 followed by `next()` |
| `Orders.ValidateStatus` | src/orders/orders.controller.js:58-77 | `next()` exactly for pending, preparing, out-for-delivery; "A delivered order cannot be changed" exactly for a submitted `delivered`; the status-list 400 exactly for anything outside the four values |
| `Orders.OrderStore.constructor` | src/orders/orders.controller.js:4 | the store starts with the seed records, whatever they are |
| `Orders.OrderStore.Create` | src/orders/orders.controller.js:87-98 | appends one order with the fresh id and the body's deliverTo, mobileNumber, status and dishes; earlier orders unchanged; the new id is then found at the new last position; unique ids stay unique |
| `Orders.OrderStore.Update` | src/orders/orders.controller.js:104-121 | a truthy body id other than the bound order's gives the mismatch 400 and changes nothing; otherwise only the bound order's four fields are overwritten; ids and length unchanged |
| `Orders.OrderStore.Destroy` | src/orders/orders.controller.js:123-134 | a non-pending order gives the 400 and the array is unchanged; a pending one is spliced out, the rest keep their order, and with unique ids a later lookup of that id is a 404 |
| `Dishes.DishExists` | src/dishes/dishes.controller.js:13-24 | binds the first dish whose id equals the route id, and binds exactly when one exists; otherwise 404 "Dish does not exist: <dishId>" |
| `Dishes.PriceRejected` | src/dishes/dishes.controller.js:39 | a present price is rejected exactly when it is not a positive integer number |
| `Dishes.DishValidation` | src/dishes/dishes.controller.js:26-47 | one signal: `next()` exactly when the four fields are truthy and the price is a positive integer; the throw exactly when data is null or undefined; every failure is a 400 |
| `Dishes.ValidateDish` | src/dishes/dishes.controller.js:26-46 | the middleware's loop and price check emit exactly the signal `DishValidation` specifies |
| `Dishes.MissingFieldReported` | src/dishes/dishes.controller.js:28-37 | fields are checked in the order name, description, price, image_url; the first falsy one gives "Dish must include a <field>" |
| `Dishes.PriceReported` | src/dishes/dishes.controller.js:39-44 | with the four fields present, a price that is not a positive integer gives the price 400 |
| `Dishes.ZeroPriceIsMissing` | src/dishes/dishes.controller.js:28-37 | a price of 0 is reported as a missing price, not by the price rule |
| `Dishes.DishStore.constructor` | src/dishes/dishes.controller.js:4 | the store starts with the seed records, whatever they are |
| `Dishes.DishStore.Create` | src/dishes/dishes.controller.js:57-68 | appends one dish with the fresh id and the body's four fields; earlier dishes unchanged; the new id is then found at the new last position |
| `Dishes.DishStore.Update` | src/dishes/dishes.controller.js:74-91 | a truthy body id other than the bound dish's gives the mismatch 400 and changes nothing; otherwise only the bound dish's four fields are overwritten; ids unchanged |

## Left out

- The `list` and `read` handlers: they only serialize the array or the bound record into the response.
- Express routing and the `methodNotAllowed` wiring of `src/dishes/dishes.router.js`: framework glue.
- Response formatting (`res.json`, `res.status`, `res.sendStatus(204)`, the `{data: ...}` envelope): I/O. Handlers return the record or the error instead.
- What Express does when a middleware calls `next` several times: the validators yield the list of signals, and the middleware chains are not composed.
- `nextId`: `src/utils/nextId` is not part of this model. The fresh id is a parameter, and that it is unused in the store is a precondition of `Create`.
- Seed data loading: the stores start from arbitrary records, passed to the constructors.
- Orders.OrderStore.Create, Orders.OrderStore.Update, Dishes.DishStore.Create, Dishes.DishStore.Update: a `null` `data` would throw during destructuring; it is excluded by a precondition because the validator that runs first has already thrown on it.
- Orders.OrderStore.Destroy: the `findIndex` result -1, which would make `splice(-1, 1)` drop the last order, cannot arise because `orderExists` bound the order in the same synchronous request; the precondition states that binding. The "later lookup fails" claim is stated for stores with unique ids, since with a duplicate id the source leaves the other record findable.
- Record identity: `res.locals.order` and `res.locals.dish` are references into the array; the model identifies the bound record by its position, which is the same record because nothing runs between the lookup and the handler.
- JavaScript numbers are exact reals: NaN, the infinities, `-0` and floating-point rounding are not modelled. NaN cannot come from JSON. A number literal beyond the double range (such as `1e400`) parses to `Infinity` or `-Infinity`, which the source rejects as a quantity or a price because `Number.isInteger` is false for it; the model has no such value, and the exact real it reads instead passes both checks when it is a positive integer. `-0` behaves as `0` in every check the controllers make.
- Js.Display: a non-integral number is rendered as a placeholder, and numbers of magnitude 1e21 or more are rendered in full rather than in exponent form; this changes only the text of the id-mismatch message for a numeric body id.
- Orders.OrderStore.Update, Dishes.DishStore.Update: a mismatching body id that is an object with its own `toString` key, such as `{"toString": 1}`, or an array holding one, makes the template literal of the mismatch message throw a TypeError (no JSON value is callable, and `valueOf` returns the object itself), so the source answers 500 and changes nothing; the model returns the mismatch 400 with "[object Object]" in its text.
- Orders.QuantityRejected, Dishes.PriceRejected: a quantity or price that is such an object, or an array holding one, makes the `<= 0` comparison throw the same TypeError; the model rejects it with the 400 instead, and `Orders.QuantitySignals` and `Dishes.DishValidation` inherit that.
- Property reads of names inherited from `Object.prototype` or carried by strings and arrays: none of the keys the controllers read by name is such a name; the `toString` that JavaScript's ToString looks up is the case above.
- Concurrency: the source is single-threaded and every handler runs to completion.
