# SaborRealReact core, modelled in Dafny

SaborRealReact is a bakery shop. A React storefront talks to a FastAPI server backed by
MongoDB. This project models the core of both halves and proves properties of that model.

**Storefront:**
- the fetch wrapper `api` and its header handling;
- the `apix` calls the catalogue and checkout use;
- the authentication and cart contexts and their `localStorage` persistence;
- the checkout page's validation, payload and submit flow.

**Server:**
- the request schemas;
- the bearer-token and login helpers;
- `serialize_doc`;
- the `/api/orders` router, with its price snapshot, its order checks and the admin status update;
- the older `/api/pedidos` router, which takes stock;
- the `/api/productos` listing and the admin product CRUD.

## How it is modelled

**Values and text:**
- JSON and Python values are one datatype, `Values.Value`. It covers `undefined`, `NaN` and ObjectId, and the truthiness rules of both languages.
- Numbers are exact reals. Python's `round(x, 2)` is written out as round half to even.
- Whitespace is per language, so that `str.strip()` and `String.prototype.trim()` are separate functions.

**State:**
- `localStorage` is a class holding a map. The auth context, cart context and checkout page are classes whose methods update their fields as the React state setters do.
- MongoDB collections are maps from the lower-case hex of an ObjectId to the stored record.
- The `Headers` object is a class holding its entries.

**Parameters:** the network, the clock, new ids, JWT signing and checking, and password hashing are parameters.
- What `fetch` answered is a `Client.Fetched` value.
- A token is modelled by the claims it carries.
- `JSON.parse` and `JSON.stringify` of the text in `localStorage` are parameters. An entry written as JSON is kept as the value it denotes.

**Modules:** `Client`, `Api`, `AuthContext`, `Cart` and `Checkout` model the storefront files. `AuthRoutes`, `Database`, `Schemas`, `Orders`, `Pedidos` and `Productos` model the server files. `Values`, `Text` and `Storage` are shared.

**The server as written does not start.** The model follows the evidently intended program:
- `get_current_user` is imported by backend/app/routers/orders.py:117, productos.py:9 and pedidos.py:5, but backend/app/routers/auth.py defines only `create_access_token`, `get_current_user_id` and `login`. In the model it returns the caller's user record, which is a parameter.
- `database.to_object_id` is called at backend/app/routers/pedidos.py:18, but backend/app/database.py does not define it. In the model it parses like `ObjectId`, and an id that does not parse finds no product, so the answer is the 404 "not found".
- `_StatusPatch` (backend/app/routers/orders.py:150-151) uses `BaseModel` and `OrderStatus`, which orders.py does not import. In the model they are pydantic's `BaseModel` and the `OrderStatus` of backend/app/schemas.py, so the status patch validates its status and applies the 404/`$set` rule of `Orders.AdminUpdateStatus`.
- As written, importing `orders`, `productos` or `pedidos` fails, so backend/app/main.py:9 cannot load its routers and none of the modelled routes are served.

## Model

| member | source | states |
|---|---|---|
| Values.DropUndefined | frontend/src/Checkout.jsx:64-68 | JSON serialisation drops exactly the properties whose value is `undefined` and keeps the others unchanged |
| Values.PyRound | backend/app/routers/orders.py:52 | `round(x, d)` lands on a multiple of 10^-d within half a unit of x, and on an even multiple when x is exactly half way |
| Values.PyRound2 | backend/app/routers/orders.py:48 | `round(x, 2)` is within 0.005 of x and a whole number of cents, an even number of cents when x is exactly half a cent from it |
| Values.PyRoundIdempotent | backend/app/routers/orders.py:52 | rounding an already rounded amount changes nothing |
| Values.PyRound2Idempotent | backend/app/routers/pedidos.py:45 | rounding a rounded total to cents changes nothing |
| Values.RoundHalfEven | backend/app/routers/orders.py:52 | the chosen integer is within one half of the value, is even when the value lies exactly half way, and is exact on whole values |
| Values.PyNumber | backend/app/routers/pedidos.py:21 | a stock compares with the quantity iff it is a number or a boolean, a number as itself |
| Values.PyFloat | backend/app/routers/pedidos.py:32 | `float(v)` keeps a number or bool as Python compares it, and reads text through `PyFloatText` |
| Values.PyFloatTextStrips | backend/app/routers/orders.py:39 | `float(s)` reads the decimal numeral `strip()` leaves, and raises when what is left is not one |
| Values.PyFloatOfNumeral | backend/app/routers/orders.py:39 | text that is a decimal numeral with no surrounding whitespace converts to the number it denotes |
| Values.PyFloatOfCentsText | backend/app/routers/orders.py:39 | a price stored as text with two decimals, signed or not, converts to that many cents |
| Values.PyFloatOfDecimalText | backend/app/routers/pedidos.py:32 | a whole number stored as text converts to that number |
| Text.Trim | frontend/src/Checkout.jsx:45-48 | the trimmed text is empty iff the text is all space, otherwise it starts and ends on non-space |
| Text.TrimIsSlice | frontend/src/Checkout.jsx:45-48 | trimming keeps exactly the slice between a leading and a trailing run of whitespace |
| Text.TrimDropFirst | backend/app/routers/orders.py:39 | whitespace at the start of a text does not change what trimming leaves |
| Text.TrimDropLast | backend/app/routers/orders.py:39 | whitespace at the end of a text does not change what trimming leaves |
| Text.DecimalStringNumeral | frontend/src/api/api.js:8 | the decimal text of a whole number is a numeral denoting that number |
| Text.CentsTextNumeral | frontend/src/api/api.js:8 | a price written with two decimals, with or without a minus sign, is a numeral denoting that many cents |
| Text.CentsTextTrimmed | frontend/src/api/api.js:8 | a price written with two decimals has no whitespace to trim |
| Text.TrimIdempotent | backend/app/routers/productos.py:91-93 | stripping twice is stripping once |
| Text.TrimUnchanged | backend/app/routers/productos.py:91-93 | a text with no surrounding space is left as it is |
| Text.JsLength | frontend/src/Checkout.jsx:48 | `.length` counts UTF-16 units: at least the number of characters, equal exactly when every character fits one unit |
| Text.DecimalString | frontend/src/api/client.js:24 | the status written in decimal is a non-empty run of digits |
| Text.DecimalStringRoundTrip | frontend/src/api/client.js:24 | reading the decimal digits back gives the status |
| Text.Lower | frontend/src/api/client.js:11-15 | header names are compared lower-cased, character by character |
| Text.LowerUnchanged | frontend/src/api/client.js:15-16 | a name without capital letters is its own lower-case form |
| Storage.LocalStorage.constructor | frontend/src/AuthContext.jsx:17-18 | the browser store starts with whatever entries were saved earlier, of any form |
| Storage.Parsed | frontend/src/CartContext.jsx:11 | `JSON.parse` of an entry written as JSON gives back the value written |
| Storage.LocalStorage.SetItem | frontend/src/CartContext.jsx:14 | `setItem` replaces the entry under that key and nothing else |
| Storage.LocalStorage.RemoveItem | frontend/src/AuthContext.jsx:54-55 | `removeItem` removes that key and nothing else |
| Client.AuthHeader | frontend/src/api/client.js:4-6 | a header is sent iff the token is truthy, and it is `Authorization: Bearer <token>` |
| Client.Appended | frontend/src/api/client.js:11 | adding a header keeps names lower-cased and joins a repeated name's values with ", " |
| Client.HeadersOfKeys | frontend/src/api/client.js:11 | `new Headers(list)` holds exactly the lower-cased listed names |
| Client.HeadersOfDistinct | frontend/src/api/client.js:11 | when no name repeats, each header is held with its own value |
| Client.Headers.constructor | frontend/src/api/client.js:11 | the object built in a loop holds the entries of the header list |
| Client.Headers.Has | frontend/src/api/client.js:15 | `has` ignores letter case |
| Client.Headers.Set | frontend/src/api/client.js:16 | `set` replaces the value under the lower-cased name |
| Client.RequestHeaders | frontend/src/api/client.js:11-18 | Content-Type is sent iff the caller gave one or the body is JSON; the caller's value wins, otherwise `application/json`; every other header is the caller's |
| Client.CallerContentTypeKept | frontend/src/api/client.js:15 | a Content-Type the caller lists in any letter case is sent unchanged |
| Client.PrepareHeaders | frontend/src/api/client.js:11-18 | the headers step builds exactly `RequestHeaders` |
| Client.FailureText | frontend/src/api/client.js:22-24 | the error message is the body text when non-empty, otherwise `"<status> Error"`; it is never empty |
| Client.ApiOutcome | frontend/src/api/client.js:20-27 | a network error is rethrown, a non-2xx throws its failure text, 204 gives null, otherwise the parsed JSON or the parser's error; it returns iff the answer is 2xx and 204 or valid JSON |
| Client.Api | frontend/src/api/client.js:10-28 | `api` sends `RequestHeaders` and ends as `ApiOutcome` |
| Api.ToNumber | frontend/src/api/api.js:8 | `Number(v)` keeps numbers, turns null into 0 and undefined or an object into NaN; an empty array is 0 and an array of two or more elements NaN |
| Api.SingletonArrayNumber | frontend/src/api/api.js:8 | a one-element array is read from the element's text: a nested array as that array, `true` as NaN and `undefined` as 0 |
| Api.NumberOfText | frontend/src/api/api.js:8 | `Number(s)` is a number iff the trimmed text is blank or a decimal numeral, NaN otherwise |
| Api.NumberOfDecimalText | frontend/src/api/api.js:8 | a price written as a whole number converts to its value |
| Api.NumberOfCentsText | frontend/src/api/api.js:8 | a price written with two decimals, such as "2.20" or "-3.05", converts to that many cents |
| Api.MapProduct | frontend/src/api/api.js:5-13 | the mapped product has the document's keys plus the six product keys; the document's own fields win, and missing keys take the fallbacks |
| Api.MapProductFallbacks | frontend/src/api/api.js:6-11 | the fallbacks: name "Producto", price 0 or NaN, slug null, `_id` taken from `id` |
| Api.MapProductIdempotent | frontend/src/api/api.js:5-13 | mapping a mapped product again changes nothing |
| Api.HandledMessage | frontend/src/api/api.js:19 | the message is the error's non-empty string message, otherwise "Error de red"; it is never empty |
| Api.Handle | frontend/src/api/api.js:15-22 | `handle` passes a result through and rethrows any error as an Error carrying that message |
| Api.HandleIdempotent | frontend/src/api/api.js:15-22 | handling an already handled outcome changes nothing |
| Api.HttpFailureMessage | frontend/src/api/api.js:15-22 | an HTTP refusal reaches the caller with the server's failure text |
| Api.ChangePasswordBody | frontend/src/api/api.js:65-77 | with either call form, the body object holds exactly `current_password` and `new_password`, read from the object or from the two arguments; as with every JSON body, a member that is `undefined` is dropped when it is sent |
| Api.ChangePasswordFormsAgree | frontend/src/api/api.js:65-77 | the object form and the two-argument form send the same body |
| Api.EncodeURIComponent | frontend/src/api/api.js:82 | the encoded category holds only unreserved characters and upper-case percent escapes |
| Api.EncodeUnreservedUnchanged | frontend/src/api/api.js:82 | a category of unreserved characters is sent as it is |
| Api.EncodeDecodeRoundTrip | frontend/src/api/api.js:82 | percent-decoding the encoded category gives its UTF-8 bytes |
| Api.CategoryQuery | frontend/src/api/api.js:82 | an empty category adds no query; otherwise `?categoria=` and the encoded category |
| Api.CategoryQueryRoundTrip | frontend/src/api/api.js:80-86 | the server can read the category back from the query |
| Api.ProductOf | frontend/src/api/api.js:84 | mapping a listed element fails only on null; an object maps through `mapProduct` |
| Api.ProductsOf | frontend/src/api/api.js:84 | the list maps element by element, and fails iff some element is null |
| Api.GetProductos | frontend/src/api/api.js:80-86 | a failed listing always carries a non-empty message |
| Api.GetProductosAnswers | frontend/src/api/api.js:83-84 | a non-array answer lists nothing; an array of objects lists each one mapped |
| Api.NoContentListsNothing | frontend/src/api/api.js:83-84 | a 204 answer lists no products |
| AuthContext.FailureMessage | frontend/src/AuthContext.jsx:33 | the message of a refused login is the server's truthy `detail`, otherwise "Credenciales inválidas" |
| AuthContext.FailureError | frontend/src/AuthContext.jsx:33-34 | a refused login throws an Error whose `message` is `String(msg)`: the server's non-empty text `detail`, "Credenciales inválidas" when there is no truthy `detail`, and `String` of any other truthy `detail` |
| AuthContext.AuthProvider.constructor | frontend/src/AuthContext.jsx:10-12 | no token, no user, not ready |
| AuthContext.AuthProvider.IsAuthenticated | frontend/src/AuthContext.jsx:62 | authenticated iff the token is truthy |
| AuthContext.AuthProvider.AuthHeader | frontend/src/AuthContext.jsx:64 | the header exists iff authenticated, and is `Bearer <token>` |
| AuthContext.RestoredToken | frontend/src/AuthContext.jsx:17-19 | no saved token keeps the current one; a saved text token is restored iff it is non-empty |
| AuthContext.RestoredUser | frontend/src/AuthContext.jsx:18-21 | a user saved as JSON is restored as the value saved; no entry or an empty one keeps the current user |
| AuthContext.AuthProvider.Restore | frontend/src/AuthContext.jsx:15-23 | a truthy saved token is restored; a truthy saved user is parsed, and kept only when it parses; storage is only read, and the context becomes ready |
| AuthContext.AuthProvider.Login | frontend/src/AuthContext.jsx:25-49 | a request that fails and an unreadable answer rethrow their error, and a refusal throws the Error `FailureError`; none of them changes anything; success sets and saves the token, and sets and saves the user only when it is truthy |
| AuthContext.AuthProvider.Logout | frontend/src/AuthContext.jsx:51-56 | token and user are cleared and both saved entries removed, nothing else changes |
| AuthContext.LoginThenReload | frontend/src/AuthContext.jsx:15-48 | after a login, a reloaded session has the token the login saved (authenticated iff it is non-empty) and the user it saved, or the older saved user when it saved none |
| Text.FirstIndexOf | backend/app/routers/auth.py:26 | the index of the first occurrence of the character (the space `split(" ", 1)` looks for, or a decimal point), or the length when there is none |
| AuthRoutes.SplitOnce | backend/app/routers/auth.py:26 | `split(" ", 1)` gives one part iff there is no space; otherwise two parts that rejoin to the text, the first without spaces |
| AuthRoutes.BearerSplit | backend/app/routers/auth.py:24-26 | the token of a "Bearer " header is everything after the prefix |
| AuthRoutes.GetCurrentUserId | backend/app/routers/auth.py:23-34 | a missing or non-Bearer header gives 401 "Falta token Bearer"; a bad token or missing or empty `sub` gives 401 "Token inválido"; otherwise the `sub` claim |
| AuthRoutes.AccessClaims | backend/app/routers/auth.py:18-21 | the claims are the payload plus `exp = now + expires_in`, which replaces any earlier `exp` |
| AuthRoutes.Login | backend/app/routers/auth.py:36-42 | fails iff the email is unknown or the password does not verify, always with 401 "Credenciales inválidas"; otherwise a bearer token with exactly `sub`, `email` and `exp` an hour ahead |
| AuthRoutes.LoginFailuresAlike | backend/app/routers/auth.py:38-40 | an unknown email and a wrong password get the same answer |
| AuthRoutes.LoginThenIdentify | backend/app/routers/auth.py:23-42 | a token issued by login and sent back as a Bearer header identifies the customer it was issued to |
| AuthRoutes.StorefrontHeaderRead | frontend/src/api/client.js:4-6 | the header the storefront builds is read back by the server as the same token |
| Database.ParseOid | backend/app/routers/orders.py:15-19 | an id parses iff it is 24 hex digits, and the result is its lower-case form |
| Database.ParseOidCanonical | backend/app/routers/orders.py:15-19 | parsing the canonical form again gives it back |
| Database.SerializedDoc | backend/app/database.py:33-39 | an empty or missing document is returned as is; otherwise the same keys, with an ObjectId `_id` turned into its text and every other field unchanged |
| Database.SerializeDoc | backend/app/database.py:33-39 | the copy-and-convert code computes `SerializedDoc` |
| Database.SerializeDocIdempotent | backend/app/database.py:41-42 | serialising a serialised document changes nothing |
| Database.NewestExists | backend/app/routers/orders.py:95 | a non-empty set of orders has a newest one |
| Database.NewestFirst | backend/app/routers/pedidos.py:60 | `sort(created, -1)` lists every selected order once, newest first, and nothing else |
| Schemas.WithActivo | backend/app/schemas.py:58-63 | a `disponible` without `activo` adds `activo = bool(disponible)`; everything else is kept |
| Schemas.WithActivoIdempotent | backend/app/schemas.py:58-63 | the before-validator applied twice is applied once |
| Schemas.MapDisponibleToActivo | backend/app/schemas.py:37-42 | the validator updates a dict input in place, as `WithActivo`, and returns it; other inputs are untouched |
| Schemas.ProductoErrors | backend/app/schemas.py:45-55 | the fields reported are exactly the missing required ones and the present ones that break their constraint |
| Schemas.ValidateProductoIn | backend/app/schemas.py:45-55 | accepted iff required fields are present and every declared field meets its constraint; undeclared fields dropped; otherwise 422 naming `ProductoErrors` |
| Schemas.ProductoInConstraints | backend/app/schemas.py:47-52 | an accepted product has a name of at least 2, a positive price, a whole stock of at least 0 defaulting to 0, and `activo` defaulting to true |
| Schemas.DisponibleBecomesActivo | backend/app/schemas.py:61-62 | a product sent with only `disponible` is validated with `activo` equal to its truthiness |
| Schemas.ProductoOutOf | backend/app/schemas.py:66-73 | a stored product serves iff its `_id` is text and it validates as `ProductoIn`; the served fields are the validated ones; otherwise 500 |
| Schemas.ProductoJson | backend/app/schemas.py:70-73 | the JSON of a product carries `disponible` equal to `activo` |
| Schemas.ValidateComentario | backend/app/schemas.py:111-114 | accepted iff the product id is text, the text is 1 to 500 long and the rating a whole 1 to 5; otherwise 422 |
| Schemas.ValidateCartItem | backend/app/schemas.py:128-130 | a cart item is accepted iff `producto_id` is text and `qty` a whole number above 0 |
| Schemas.ValidatePedidoItem | backend/app/schemas.py:154-156 | an accepted pedido item has `qty` of at least 1 |
| Schemas.CartAndPedidoItemsAgree | backend/app/schemas.py:128-130 | `qty > 0` and `qty >= 1` accept the same items |
| Schemas.ValidateItems | backend/app/schemas.py:137 | a list is accepted iff every element is, element by element |
| Schemas.ValidateOrderCreate | backend/app/schemas.py:136-141 | accepted iff `items` is a list of valid cart items, the three delivery fields are text and `notas` is absent, null or text; otherwise 422 |
| Schemas.ParseStatus | backend/app/schemas.py:133 | exactly the four status names parse, each to itself |
| Schemas.StatusRoundTrip | backend/app/schemas.py:133 | every status parses back from its name |
| Schemas.ParseRol | backend/app/schemas.py:95 | a missing role means customer; only "customer" and "admin" are accepted; otherwise 500 |
| Orders.Oid | backend/app/routers/orders.py:15-19 | `_oid` succeeds iff the id parses, otherwise 400 "ObjectId inválido: <id>" |
| Orders.CheckOrder | backend/app/routers/orders.py:56-65 | an order passes iff it has items and valid delivery data; each check in order gives its own error, and only the empty cart is 400 |
| Orders.ActiveProduct | backend/app/routers/orders.py:35-37 | a product is found iff its id parses and names an active product; otherwise the `_oid` error or 400 "Producto no disponible" |
| Orders.SnapLine | backend/app/routers/orders.py:35-50 | a line succeeds iff the product is found active and `float` reads its price; a lookup failure gives the lookup's error and an unreadable price 500; a line records the product key, its `nombre` and `imagenUrl`, the quantity, the price and the rounded subtotal |
| Orders.SnapEntry | backend/app/routers/orders.py:43-50 | a snapshot entry copies the product's `nombre` and `imagenUrl`, and its subtotal is the line amount rounded to cents |
| Orders.CollectErrorSticks | backend/app/routers/orders.py:34-50 | once a line fails, later lines do not change the result |
| Orders.CollectLineAt | backend/app/routers/orders.py:43-50 | each snapshot entry is the line computed for that item |
| Orders.CollectTotal | backend/app/routers/orders.py:39-41 | the unrounded total is the sum of the unrounded line amounts |
| Orders.CollectFirstError | backend/app/routers/orders.py:34-50 | a failed snapshot fails with the first failing line's error |
| Orders.SnapshotLines | backend/app/routers/orders.py:34-52 | a successful snapshot has one entry per item, each that item's line, and its total is their sum |
| Orders.SnapshotFirstError | backend/app/routers/orders.py:34-50 | a failed snapshot names the first item that fails |
| Orders.SnapshotFailsIff | backend/app/routers/orders.py:34-50 | the snapshot fails iff some item's line fails |
| Orders.SnapshotItem | backend/app/routers/orders.py:35-50 | one loop step computes `SnapLine` |
| Orders.SnapshotLoop | backend/app/routers/orders.py:34-50 | the loop computes the snapshot of all items or the first error |
| Orders.CalcTotalSnapshot | backend/app/routers/orders.py:26-52 | the error of the first failing item, or the total rounded to cents with the snapshot |
| Orders.CreateOrder | backend/app/routers/orders.py:54-91 | the checks' error, then the snapshot's error, then the user id's; otherwise one new order is inserted, with the items, rounded total, CREATED status and delivery; it fails iff any of these does, and a failure changes nothing |
| Orders.Owned | backend/app/routers/orders.py:95 | the orders selected are exactly the order records of that user |
| Orders.MyOrders | backend/app/routers/orders.py:93-105 | an invalid user id gives 400; otherwise every order of the user appears once, as its summary, newest first |
| Orders.OrderDetail | backend/app/routers/orders.py:107-114 | invalid ids give 400; the user's own order is returned; any other gives 404 |
| Orders.RequireAdmin | backend/app/routers/orders.py:119-122 | passes iff the role is "admin", otherwise 403 "Solo admin" |
| Orders.WithStatus | backend/app/routers/orders.py:155-158 | `$set status` changes only the status and keeps items, total and creation time |
| Orders.AdminUpdateStatus | backend/app/routers/orders.py:150-161 | 403 for non-admins, 422 for an unknown status, 400 for a bad id, 404 for no order; otherwise only that order's status is set; errors change nothing |
| Pedidos.FindActive | backend/app/routers/pedidos.py:18-20 | found iff the id parses and names an active product |
| Pedidos.Conflict | backend/app/routers/pedidos.py:21-22 | the 409 message needs the product's `nombre`; a product without one gives 500 |
| Pedidos.Decremented | backend/app/routers/pedidos.py:25-28 | `$inc stock -qty` lowers the stock by exactly qty and keeps the other fields |
| Pedidos.DecrementTwice | backend/app/routers/pedidos.py:25-28 | two decrements add up |
| Pedidos.LineFor | backend/app/routers/pedidos.py:32-40 | a line records the product, name, price, quantity and unrounded subtotal |
| Pedidos.ProcessItem | backend/app/routers/pedidos.py:17-40 | 404 for a missing product; the table is unchanged or loses exactly qty of that product's stock; a line is recorded only after its stock is taken, with that product's id, the quantity and price times quantity |
| Pedidos.ItemOutcome | backend/app/routers/pedidos.py:21-40 | an uncomparable stock is 500 and short stock the 409 "Sin stock para", both leaving the table; enough non-numeric stock is the 409 "Stock cambió para"; otherwise the stock is taken and the line succeeds iff the price converts and the name exists, recording them |
| Pedidos.RunItems | backend/app/routers/pedidos.py:15-40 | a successful run has one line per item |
| Pedidos.RunTotal | backend/app/routers/pedidos.py:32-33 | the running total of a successful run is the sum of its lines' subtotals |
| Pedidos.RunLineAt | backend/app/routers/pedidos.py:17-40 | line k of a successful run is what item k gives on the table the earlier items left |
| Pedidos.RunKeepsKeys | backend/app/routers/pedidos.py:25-28 | taking stock never adds or removes products |
| Pedidos.RunErrorSticks | backend/app/routers/pedidos.py:17-40 | after an item fails, later items are not processed |
| Pedidos.RequestedNonNegative | backend/app/schemas.py:156 | the quantity requested of a product is never negative |
| Pedidos.UnnamedUnchanged | backend/app/routers/pedidos.py:25-28 | a product no item names keeps its record |
| Pedidos.RunKeepsStockNonNegative | backend/app/routers/pedidos.py:21-28 | taking stock never drives a stock below zero |
| Pedidos.RunDecrementsStock | backend/app/routers/pedidos.py:15-40 | after a successful run each product's stock is lower by exactly the quantity requested of it |
| Pedidos.FailureKeepsEarlierDecrements | backend/app/routers/pedidos.py:17-30 | a failed run fails at some item, and the decrements before it stay |
| Pedidos.TakeLine | backend/app/routers/pedidos.py:17-40 | one loop step computes `ProcessItem` on the collection |
| Pedidos.TakeStock | backend/app/routers/pedidos.py:15-40 | the loop leaves the collection and result that `RunItems` gives |
| Pedidos.CrearPedido | backend/app/routers/pedidos.py:9-56 | no items gives 400 and changes nothing; otherwise stock is taken as `RunItems`, and its error is returned; otherwise the pedido with rounded total and estado "creado" is inserted |
| Pedidos.OwnedPedidos | backend/app/routers/pedidos.py:60 | the pedidos selected are exactly those whose `usuario_id` is the user id, or an array holding it, as MongoDB equality matches |
| Pedidos.MisPedidos | backend/app/routers/pedidos.py:58-72 | fails with 500 iff a selected pedido's `usuario_id` is not text; otherwise each one appears once, newest first |
| Productos.Stripped | backend/app/routers/productos.py:91-93 | the four text fields are stripped; other values unchanged |
| Productos.Normalized | backend/app/routers/productos.py:81-94 | `disponible` becomes `activo` when `activo` is absent, and every field is stripped as `Stripped` |
| Productos.StripKeysSpec | backend/app/routers/productos.py:91-93 | the strip loop keeps the keys and strips exactly the listed ones |
| Productos.StripAllKeys | backend/app/routers/productos.py:87-93 | the loop over the four keys computes `Normalized` |
| Productos.NormalizePayload | backend/app/routers/productos.py:81-94 | the copy-and-loop code computes `Normalized` |
| Productos.NormalizedIdempotent | backend/app/routers/productos.py:81-94 | normalising twice is normalising once |
| Productos.PublicQuery | backend/app/routers/productos.py:104-120 | filter by a non-empty category; filter by `activo` unless `all == 1`, taken from `activo`, then `disponible`, then true |
| Productos.ListarProductos | backend/app/routers/productos.py:97-123 | the listing code builds `PublicQuery` |
| Productos.DefaultListingShowsActive | backend/app/routers/productos.py:117-120 | with no parameters exactly the active products are listed |
| Productos.AllListsEveryProduct | backend/app/routers/productos.py:113-115 | with `all=1` the activity of a product does not matter |
| Productos.CategoryListingMatches | backend/app/routers/productos.py:106-107 | with a category, only products of that category are listed |
| Productos.DisponibleStandsInForActivo | backend/app/routers/productos.py:110-111 | `disponible` acts as `activo` when `activo` is absent |
| Productos.AdminQuery | backend/app/routers/productos.py:27-34 | category filter as above; `activo` filter unless `all == 1`, defaulting to true |
| Productos.AdminQueryIsPublicQuery | backend/app/routers/productos.py:20-36 | the admin listing filters like the public one |
| Productos.AdminListProducts | backend/app/routers/productos.py:20-36 | 403 iff not an admin; otherwise `AdminQuery` |
| Productos.ValidatedAsWritten | backend/app/routers/productos.py:39-40 | the body is validated as `ProductoIn` and then normalised |
| Productos.StripKeepsFieldOk | backend/app/routers/productos.py:91-93 | stripping keeps every field except the name valid |
| Productos.AsWrittenFields | backend/app/routers/productos.py:39-40 | as written, the stored fields are declared and present, and all but the name remain valid |
| Productos.ValidatedPayload | backend/app/routers/productos.py:39-40 | corrected: accepted iff the as-written result is accepted and its stripped name is still valid; a stored payload has only valid declared fields; otherwise 422 |
| Productos.WithDefaults | backend/app/routers/productos.py:42-43 | `activo` defaults to true and `stock` to 0; other fields are kept |
| Productos.Served | backend/app/routers/productos.py:45-46 | the record read back carries its id |
| Productos.CreateAsWrittenCanStoreUnservable | backend/app/routers/productos.py:38-46 | as written, the name " a" passes validation, is stored as "a", and the response then fails |
| Productos.ValidRecordIsServable | backend/app/routers/productos.py:42-46 | a record of valid fields with the defaults serves as `ProductoOut` |
| Productos.CreatedIsServable | backend/app/routers/productos.py:38-46 | with the corrected validation, every created product serves |
| Productos.AdminCreateProduct | backend/app/routers/productos.py:38-46 | 403, then 422; otherwise exactly one new record, with the defaults, served back; errors change nothing |
| Productos.ProductOid | backend/app/routers/productos.py:72-76 | succeeds iff the id parses, otherwise 400 "ObjectId inválido" |
| Productos.SetFields | backend/app/routers/productos.py:51-54 | `$set` overwrites the given fields and keeps the rest |
| Productos.AdminUpdateProduct | backend/app/routers/productos.py:48-59 | 403, then 422, then 400 for a bad id, then 404 for no product; otherwise the fields are set and the product served |
| Productos.AdminDeleteProduct | backend/app/routers/productos.py:61-66 | 403, then 400, then 404; otherwise exactly that product is removed |
| Cart.FindIndex | frontend/src/CartContext.jsx:19 | `findIndex` gives the first line with that product, or -1 when none has it |
| Cart.AddLine | frontend/src/CartContext.jsx:17-27 | an existing line gets the quantity added and the other lines are kept; otherwise a new line is appended |
| Cart.RemoveLines | frontend/src/CartContext.jsx:28-30 | no remaining line has that product |
| Cart.RemoveLinesMembers | frontend/src/CartContext.jsx:29 | a line remains iff it was there and is of another product |
| Cart.RemoveFromDistinct | frontend/src/CartContext.jsx:28-30 | in a cart without repeated products, removal deletes exactly the found line |
| Cart.RemoveNothing | frontend/src/CartContext.jsx:29 | removing an absent product leaves the cart as it is |
| Cart.TotalIsSum | frontend/src/CartContext.jsx:33 | the reduced total is the sum of the line subtotals, 0 for an empty cart |
| Cart.AddKeepsDistinct | frontend/src/CartContext.jsx:17-27 | adding never makes a product appear twice |
| Cart.AddQuantity | frontend/src/CartContext.jsx:17-27 | adding raises that product's quantity by qty and no other |
| Cart.AddTotal | frontend/src/CartContext.jsx:17-33 | adding raises the total by the line's price times qty |
| Cart.TotalWithUpdate | frontend/src/CartContext.jsx:22 | replacing a line changes the total by the difference of subtotals |
| Cart.RemoveQuantity | frontend/src/CartContext.jsx:28-30 | removal zeroes that product's quantity and keeps the others |
| Cart.RemoveTotal | frontend/src/CartContext.jsx:28-33 | removal lowers the total by the removed line's subtotal |
| Cart.TotalWithout | frontend/src/CartContext.jsx:33 | deleting a line lowers the total by its subtotal |
| Cart.EncodeLines | frontend/src/CartContext.jsx:14 | one JSON element per line |
| Cart.EncodeDecodeLines | frontend/src/CartContext.jsx:11-14 | reading the saved lines back gives the same lines |
| Cart.LoadCart | frontend/src/CartContext.jsx:9-12 | no entry or an empty one loads the empty list; a saved array always loads |
| Cart.RestoreAfterSave | frontend/src/CartContext.jsx:9-15 | what the cart saves is what the next mount loads |
| Cart.CartProvider.Mount | frontend/src/CartContext.jsx:7-15 | a list that loads becomes the cart and is saved; text `JSON.parse` rejects breaks the page and leaves storage as it was; a non-array breaks the page after the empty list is saved |
| Cart.CartProvider.Save | frontend/src/CartContext.jsx:13-15 | the lines are saved under `sr_cart` |
| Cart.CartProvider.Add | frontend/src/CartContext.jsx:17-27 | the lines become `AddLine` of the old lines, and are saved |
| Cart.CartProvider.Remove | frontend/src/CartContext.jsx:28-30 | the lines become `RemoveLines` of the old lines, and are saved |
| Cart.CartProvider.Clear | frontend/src/CartContext.jsx:31 | the cart is emptied and saved empty |
| Cart.CartProvider.CartTotal | frontend/src/CartContext.jsx:33 | the total is the sum of the subtotals |
| Checkout.FormWith | frontend/src/Checkout.jsx:26-30 | editing a field changes that field only |
| Checkout.FieldErrors | frontend/src/Checkout.jsx:43-49 | a field has an error iff its check fails, each with its own message; `notas` never has one |
| Checkout.NoFieldErrors | frontend/src/Checkout.jsx:51 | there are no errors iff all three checks pass |
| Checkout.PhoneFieldShape | frontend/src/Checkout.jsx:7 | a passing phone is 6 to 20 digits, `+`, `-` or spaces once trimmed |
| Checkout.CanSubmitIff | frontend/src/Checkout.jsx:32-38 | the button is enabled iff not submitting, the cart has items and no field has an error |
| Checkout.SentQty | frontend/src/Checkout.jsx:67 | `Number(qty) \|\| 1` sends the quantity, or 1 when it is 0 |
| Checkout.LineIdUndefined | frontend/src/Checkout.jsx:66 | as written, a cart line's `_id \|\| id` is undefined |
| Checkout.SentBody | frontend/src/Checkout.jsx:64-73 | the payload has the five keys, one item per line and the trimmed delivery fields |
| Checkout.PayloadAsWrittenRejected | frontend/src/Checkout.jsx:64-68 | as written, every non-empty order is refused with 422 |
| Checkout.IntendedItemAccepted | backend/app/schemas.py:128-130 | corrected, each line is accepted as a cart item with its product and quantity |
| Checkout.PayloadIntendedAccepted | frontend/src/Checkout.jsx:64-73 | corrected, the payload is accepted, with one item per line and the trimmed delivery fields |
| Checkout.RefusalShowsServerText | frontend/src/Checkout.jsx:82-83 | a refused order shows the server's failure text |
| Checkout.ErrorState | frontend/src/Checkout.jsx:51-54 | each field's error is shown with its message |
| Checkout.SubmitChecksInOrder | frontend/src/Checkout.jsx:43-62 | field errors first, then the empty cart, then the login; it sends iff the button would be enabled and the user is logged in |
| Checkout.CheckoutPage.constructor | frontend/src/Checkout.jsx:13-22 | an empty form, no errors, not submitting, no message, nothing done |
| Checkout.CheckoutPage.CanSubmitNow | frontend/src/Checkout.jsx:32-38 | enabled only when not submitting and with items |
| Checkout.CheckoutPage.OnChange | frontend/src/Checkout.jsx:26-30 | the field is set, its error cleared and the message emptied; nothing else changes |
| Checkout.CheckoutPage.Checks | frontend/src/Checkout.jsx:43-62 | the checks stop exactly where `SubmitStop` says |
| Checkout.CheckoutPage.SendOrder | frontend/src/Checkout.jsx:75-86 | success empties the cart, resets the form and shows the confirmation; failure keeps the cart and shows the error; the only storage entry written is `sr_cart`, which holds the cart |
| Checkout.CheckoutPage.Submit | frontend/src/Checkout.jsx:40-87 | each check that stops shows its error and leaves the cart alone; otherwise the corrected payload is sent and the outcome handled as `SendOrder`; either way no storage entry but `sr_cart` changes, and that one holds the cart |

## Left out

- Numbers are exact reals: binary floating point and its rounding errors are not modelled. `round(x, 2)` is exact round-half-even on that real.
- `Text.IsDigit` and the phone pattern's `\d` are ASCII digits. Python's `\d` also matches other Unicode digits.
- Pydantic's lax coercion (for example, a numeric string accepted as `int`) is not modelled. Only values of the declared JSON type are accepted.
- Concurrency is not modelled. Each request runs alone, so the atomic `$gte` update in backend/app/routers/pedidos.py:25-30 fails only for a stock that passed the comparison without being a number (a boolean); `Pedidos.ItemOutcome` states that "Stock cambió" case.
- Clocks, new ObjectIds, order codes, JWT signing and checking, and passlib password checks are parameters. A token is modelled by its claims.
- The import failures above are not modelled. The model is of the server with `get_current_user`, `database.to_object_id` and the two missing imports supplied as described under "How it is modelled". With the missing names, the server does not start.
- The sort by `nombre` in the product listings is not modelled. The listings are modelled by the query they send.
- `admin_list_orders` and `admin_order_detail` (backend/app/routers/orders.py:126-148) are not modelled. They repeat `MyOrders` and `OrderDetail` without the owner filter.
- Header name and value validation by `Headers` is not modelled.
- Api.ToNumber: text converts when, trimmed, it is blank or a decimal numeral `[+-]?(d+(.d*)?|.d+)`. Exponents (`1e3`), hexadecimal, binary and octal forms (`0x1F`) and `Infinity` give NaN here, where JavaScript reads them as numbers; `-0` is 0.
- Values.PyFloat: text converts when, stripped, it is a decimal numeral `[+-]?(d+(.d*)?|.d+)`. Exponents, underscores between digits, `inf`, `infinity` and `nan`, and non-ASCII digits give None here, where Python's `float` reads them.
- Api.ProductOf: spreading a string or array element into the product (its indices become keys) is not modelled. Such elements map to the fallbacks only.
- Api.GetProductos: the text of the TypeError thrown on a null element is the engine's own, so only its being non-empty is stated.
- Key order of JSON objects and Python dicts is not modelled. Objects are maps.
- AuthContext.AuthProvider.Login: an ok answer whose JSON is `null` (reading `access_token` then throws) or whose `access_token` is not a string is not modelled. `Accepted` carries the token as text.
- AuthContext.FailureError: JavaScript's `String` of a value other than a string (for example FastAPI's list of validation errors as `detail`) is the parameter `jsString`. Its text is not modelled.
- AuthContext.AuthProvider.Restore: `JSON.parse` and `JSON.stringify` are parameters. `getItem` throwing (storage disabled) is not modelled.
- Cart.CartProvider.Mount: a saved array with an element that is not a cart line `{producto_id, nombre, precio, qty}` loads as the empty list. The page would keep those elements, and its total would be NaN, or the render would throw on a `null` element.
- Cart.CartProvider.Mount: when the page breaks, React's unmounting of the tree is not modelled. The cart keeps the empty list and records the failing load.
- Database.NewestFirst: the order among records with the same creation time is not stated, because MongoDB does not fix it.
- Productos.AdminCreateProduct and Productos.AdminUpdateProduct use the corrected validation `ValidatedPayload` (see Findings). The as-written flow is `ValidatedAsWritten`.
- Checkout.CheckoutPage.Submit: the page sends the corrected body `SentBody(items, form, ItemIntended)`, with `producto_id: it.producto_id`. As written (Checkout.jsx:66) it sends `ItemAsWritten`, which the server refuses with 422, so every order with items ends on the failure message (see Findings).
- Checkout.CheckoutPage.Submit: the `submitting = true` state during the await is not observable. The request's headers and token sent by `createOrder` are not modelled, and the field checks are stated before the state updates they cause.
- The other `apix` wrappers (`login`, `register`, `me`, `updateProfile`, `getComentarios`, `createComentario`, `myOrders`, `createOrder`) only pass their arguments to `api` and `handle`, which are modelled. Their paths and bodies are not modelled.
- Checkout.FailureText: an error whose `message` is truthy but not a string is not distinguished. `handle` always throws an Error with a string message.

## Findings

| source | as written | input that shows it | evidently intended | confidence | as-written member | corrected member |
|---|---|---|---|---|---|---|
| frontend/src/Checkout.jsx:64-68 | each item's `producto_id` is `it._id \|\| it.id`, but cart lines carry the id as `producto_id`, so it is undefined and dropped from the JSON | any non-empty cart: the server answers 422 for every order | send `producto_id: it.producto_id` | high (not executed) | Checkout.PayloadAsWrittenRejected | Checkout.PayloadIntendedAccepted |
| backend/app/routers/productos.py:38-46 | the body is validated before `_normalize_payload` strips it, so a name of length 2 only with its space is stored with length 1 | `{"nombre": " a", "precio": 1}`: inserted, then `ProductoOut` refuses the stored product and the create answers 500 | check the stripped name, answering 422 | high (not executed) | Productos.CreateAsWrittenCanStoreUnservable | Productos.CreatedIsServable |
