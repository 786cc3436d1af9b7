# grocy-mcp core, modelled in Dafny

The grocy-mcp server exposes a Grocy household-inventory instance to MCP
clients. It reaches Grocy through the Home Assistant ingress proxy. This
project models the three parts of the server that carry logic:

- **The ingress session manager** (`HASessionManager`, module `HaSession`).
  - It derives the websocket URL from the Grocy API URL.
  - It runs the `auth_required` / `auth` / `auth_ok` handshake.
  - It asks the supervisor for an ingress session token over the websocket.
  - It renews that token when `(now - issued).seconds` exceeds 60.
  - Each operation is first a function on a `Session` value. It is then a
    method of the `SessionManager` class, proved equal to that function.
  - The lemmas about the functions state what the source promises.
- **The request dispatcher** (`GrocyRepository._request`, module `Dispatcher`).
  - It joins the base URL and the endpoint.
  - It fetches one session token and builds one set of headers.
  - It makes up to three attempts. A 5xx status and any non-HTTP exception
    are retried; any other status is logged and raised at once.
- **The repository's data shaping** (module `Repository`):
  - the product list merged with the stock list;
  - the name search, the location list and the rows of one shopping list;
  - the request payloads, whose optional keys depend on `None` or on
    truthiness;
  - the `assert isinstance(...)` checks and the `result or {}`
    normalisation of the delete helpers.
- **The MCP tools with validation and decisions** (module `Tools`):
  - `add_stock` partitions a batch into successes and failures;
  - `consume_stock` and `update_shopping_list` guard the amount and action;
  - `create_product` and `update_product_master_data` build full and partial
    payloads;
  - `inspect_entity` applies the allowlist and clamps the limit;
  - `delete_product` decides from the stock on record.

External effects become parameters:
- The websocket is a scripted queue of inbound messages and a log of
  outbound ones.
- The clock is an injected `now`, in whole seconds.
- The HTTP client is a function from the attempt number to what that attempt
  brought back.
- At the tool level, `_request` as a whole is a `Backend`: the reply to the
  n-th call an operation makes. Each tool returns the calls it made, in order.
- Python's `int()`, `float()` and `str()` on JSON values are an abstract
  `Conversions` record.
- The pydantic parse of an `add_stock` item is an abstract parser.

The model keeps three quirks of the session manager as written:
- The socket is recorded before the handshake is checked (ha_session.py:25),
  so a failed handshake is never retried
  (`HaSession.FailedHandshakeIsNotRetried`).
- The request id is consumed even when the renewal fails
  (`HaSession.RequestTokenOutcome`).
- The token age drops whole days (`HaSession.StalenessBoundary`).

Three behaviours of the code that the model keeps as they are:
- Every exception other than an HTTP status error is retried
  (src/repository.py:78-82). That includes a 2xx body that does not decode
  as JSON (`Dispatcher.UnreadableBodyIsResent`).
- The diagnostic context is printed only for a final HTTP status error
  (src/repository.py:63-77), not for other final failures
  (`Dispatcher.SendWithRetry`).
- Errors are either an HTTP status error or some other exception.
  `Common.Failure` follows that split. `HttpStatus` is the status error the
  HTTP client raises, re-raised as it is. `Raised` carries every other
  exception:
  - the plain `Exception`s of the session manager;
  - transport failures and a body that does not decode as JSON;
  - the `AttributeError`, `AssertionError`, `TypeError` and validation
    errors of the repository layer.

A few more facts of the code shape the model:
- `result.session` may be null in a successful reply
  (ha_session.py:57-61). The null is cached as `None`, stamped with the time
  and returned, and the next call renews again
  (`HaSession.NullSessionIsReturned`). The header then carries
  `ingress_session=None` (src/repository.py:35-36).
- The product and location loops iterate over whatever the response is
  (src/repository.py:127, 169). An empty object or string yields no rows.
  A non-empty one raises `AttributeError`, and any other non-list raises
  `TypeError` (`Repository.Iterate`).
- A product row is validated as a `ProductCandidate` (src/models.py:54-62).
  A name that is not a string, or an id field that is not null and fails
  pydantic's lax int validation (the abstract `validateInt`), raises a
  validation error that the loop does not catch.
- The conversions are abstract. `Repository.Sound` states what every Python
  conversion does on values that need none, and
  `Repository.StockIndexWhenSound` and `Tools.StockOnRecordWhenSound` use it
  for the documented defaults.

The operations are reference functions: `HaSession.Connect`,
`HaSession.RequestToken`, `HaSession.EnsureValid`, `HaSession.Stale`,
`Dispatcher.RequestUrl`, `Dispatcher.Headers`, `Repository.StockIndex`,
`Repository.AllProducts`, `Repository.MatchingProducts`,
`Repository.ListRows`, `Repository.Locations` and `Tools.Changes`. The
lemmas in the table state their properties, and the methods are proved
equal to them.

## Model

| member | source | states |
|---|---|---|
| HaSession.BeforeFirst | ha_session.py:19 | `split(marker)[0]` is a prefix of the URL with no marker before its end, and it ends where the first marker starts, or is the whole URL |
| HaSession.ReplaceAll | ha_session.py:22 | `replace` leaves text that does not hold the pattern unchanged |
| HaSession.WebSocketUrl | ha_session.py:19-23 | the derived websocket URL always ends with `/api/websocket` |
| HaSession.BeforeFirstOfMarked | ha_session.py:19 | splitting `base + "/api/hassio_ingress" + rest` gives `base` back when `base` holds no marker |
| HaSession.ReplaceLeading | ha_session.py:22 | a scheme at the start that occurs nowhere else is replaced once, and the rest is kept |
| HaSession.WebSocketUrlOfHttp | ha_session.py:19-23 | `http://host/api/hassio_ingress/...` becomes `ws://host/api/websocket` |
| HaSession.WebSocketUrlOfHttps | ha_session.py:19-23 | `https://host/api/hassio_ingress/...` becomes `wss://host/api/websocket`: the `http://` replacement does not touch `https://` |
| HaSession.TokenAge | ha_session.py:73 | `timedelta.seconds` of the elapsed time lies in [0, 86400) |
| HaSession.TokenAgeDropsDays | ha_session.py:73 | the age of a token issued `d` days and `s` seconds ago is `s` |
| HaSession.ConnectOutcome | ha_session.py:25-42 | the handshake succeeds iff the socket opens, the greeting is `auth_required` and the reply is `auth_ok`; exactly one `auth` message with the long-lived token is sent iff the greeting was right; the socket stays recorded after any failure once opened; token, time and id are untouched |
| HaSession.RequestTokenOutcome | ha_session.py:46-62 | the request carries the current id and the id is advanced by one whatever the reply; a failure leaves token and time unchanged; success iff `success` and a readable `result.session`, and then token := that session (`None` when it is null), time := now, and that value is returned |
| HaSession.RenewsIffStale | ha_session.py:68-74 | a call consumes a request id iff it has or gets a handshaken socket and the token is missing or its age exceeds 60 |
| HaSession.FreshTokenIsReused | ha_session.py:72-76 | with a socket and a fresh token the call returns the cached token and changes nothing: nothing sent, no id consumed |
| HaSession.NullSessionIsReturned | ha_session.py:57-76 | a successful reply with a null session is not an error: the call returns `None`, caches `None` stamped with the time of the call, and the next call sends another session request with the next id |
| HaSession.AtMostOneConnectAndRenewal | ha_session.py:66-76 | one call sends at most one `auth` followed by at most one session request, and on normal return the value returned is the cached token, `None` included |
| HaSession.EnsureValidPreserves | ha_session.py:64-76 | a call keeps every cached token paired with its issue time and a socket, keeps the session-request ids strictly increasing and below the counter, and never lowers the counter |
| HaSession.FailedHandshakeIsNotRetried | ha_session.py:25-76 | a wrong greeting fails with no token and nothing sent, but the socket stays recorded, so the next call skips connecting and goes straight to session request 1 |
| HaSession.StalenessBoundary | ha_session.py:72-73 | 60 s and 1 day + 30 s are not stale; 61 s and 1 day + 61 s are |
| HaSession.FreshnessScenario | ha_session.py:64-76 | a token 45 s old is returned as is; one 75 s old is replaced by one renewal round trip, stamped with the time of the call (age 0) |
| HaSession.SessionManager.constructor | ha_session.py:9-14 | no socket, no token, no time, request id 1, nothing sent |
| HaSession.SessionManager.Recv | ha_session.py:28 | receiving takes the next scripted message, or none when the peer has closed |
| HaSession.SessionManager.ConnectWebsocket | ha_session.py:16-42 | the fields and the socket logs change exactly as `Connect` says |
| HaSession.SessionManager.GetSessionToken | ha_session.py:44-62 | the fields and the socket logs change exactly as `RequestToken` says |
| HaSession.SessionManager.EnsureValidToken | ha_session.py:64-76 | the call changes the state exactly as `EnsureValid` says, and keeps the manager's invariant (coherent fields, ordered ids, socket URL derived from the API URL) |
| Dispatcher.RStripSlash | src/repository.py:22 | `rstrip("/")` is a prefix, what it drops is all slashes, and it does not end with a slash |
| Dispatcher.LStripSlash | src/repository.py:31 | `lstrip("/")` is a suffix, what it drops is all slashes, and it does not start with a slash |
| Dispatcher.RequestUrlSeam | src/repository.py:22-31 | the URL is the base without trailing slashes, exactly one slash, then the endpoint without leading slashes |
| Dispatcher.ExtraSlashesIgnored | src/repository.py:22-31 | an extra slash after the base URL or before the endpoint does not change the URL |
| Dispatcher.Classify | src/repository.py:57-82 | an attempt is only ever retried before the third |
| Dispatcher.Run | src/repository.py:43-82 | the loop makes between 1 and 3 attempts and its outcome is the last attempt's |
| Dispatcher.ClassifyRetriesIff | src/repository.py:59-82 | an attempt is retried iff it is before the third and was a network error, a 5xx, or a 2xx whose body did not parse |
| Dispatcher.RunStopsAtFirstFinish | src/repository.py:43-82 | exactly `n` attempts are made iff attempts 1..n-1 were retried and attempt `n` was not; the outcome is attempt `n`'s |
| Dispatcher.SuccessOnAttempt | src/repository.py:45-58 | a 2xx with a body on attempt `k` returns that body after exactly `k` attempts |
| Dispatcher.AlwaysUnavailable | src/repository.py:59-77 | an upstream that always answers 503 gets exactly 3 attempts and the 503 is raised |
| Dispatcher.ClientErrorNotRetried | src/repository.py:59-77 | a 404 on the first attempt is raised after that one attempt |
| Dispatcher.NonServerErrorNotRetried | src/repository.py:59-77 | any status outside 2xx and 5xx is raised after one attempt |
| Dispatcher.UnreadableBodyIsResent | src/repository.py:45-82 | a 2xx whose body never decodes is sent three times and the decoding error is raised |
| Dispatcher.SendWithRetry | src/repository.py:43-84 | the loop's outcome and attempt count are `Run`'s, every attempt sends the same request, and exactly one log entry precedes a raised status error, none otherwise |
| Dispatcher.GrocyRepository.constructor | src/repository.py:21-22 | the base URL is the configured API URL with trailing slashes stripped, the same URL the session manager derives its websocket from |
| Dispatcher.GrocyRepository.Request | src/repository.py:24-84 | the token is fetched once, before any attempt; if that raises nothing is sent; otherwise every attempt carries the joined URL, the same cookie and API-key headers, the params and the body, and the outcome is `Run`'s; the log holds one entry, with the verb, the URL and the status, iff the final failure is an HTTP status error, and is empty otherwise |
| Repository.StockIndexWhenSound | src/repository.py:116-124 | with sound conversions an entry with an int id and a float amount indexes that amount, and one without `amount` indexes 0 |
| Repository.StockIndexMembers | src/repository.py:116-124 | the stock index holds a product id iff some stock entry names it |
| Repository.StockIndexKeepsLastEntry | src/repository.py:116-124 | the index holds, for each id, the amount of the last stock entry that names it |
| Repository.IndexEntryEffect | src/repository.py:118-124 | one stock entry stores its amount under its own id and leaves every other id as it was |
| Repository.CandidatesFollowProducts | src/repository.py:126-143 | the candidates are the product rows whose id converts, in list order, each built from its row (name and validated optional ids) and the stock index |
| Repository.CandidateRowsValid | src/repository.py:126-143 | when the product loop finishes, every row with a convertible id has a string name and three id fields that are null or valid ints (src/models.py:54-62): a validation failure is raised, never skipped |
| Repository.NonListProducts | src/repository.py:126-127 | in place of the product list, an empty object or string gives no candidates, a non-empty one raises, and a non-container is not iterable |
| Repository.AllProductsStock | src/repository.py:116-143 | each candidate's stock amount is that of the last stock entry for its id, is present iff some entry names the id, and is none whenever the stock response is not a list; the row each candidate comes from passed the candidate's validation |
| Repository.IndexStock | src/repository.py:116-124 | the stock loop computes `StockIndex`, and an empty index when the stock response is not a list |
| Repository.CollectCandidates | src/repository.py:126-143 | the product loop, with the candidate's validation, computes the fold `CandidatesFollowProducts` describes |
| Repository.MergeProducts | src/repository.py:116-143 | the two loops together compute `AllProducts`, including its iteration over a product response that is not a list |
| Repository.GetAllProducts | src/repository.py:110-143 | the products request, then the stock request only if the first succeeded; an exception from either propagates; otherwise the result is `AllProducts` |
| Repository.SearchKeepsMatches | src/repository.py:159-162 | the search keeps exactly the products whose lower-cased name contains the lower-cased query, and keeps their order |
| Repository.EmptyQueryKeepsAll | src/repository.py:160-162 | an empty query keeps every product |
| Repository.SearchIgnoresQueryCase | src/repository.py:160-162 | a query and its lower-cased form find the same products |
| Repository.SearchProducts | src/repository.py:159-162 | the search makes the calls of `get_all_products`; an exception from either request or from the merge propagates; otherwise it returns the name filter of the products, and every product it returns matches the query |
| Repository.ShoppingListItems | src/repository.py:189-195 | the result is a list iff the response is a list of objects, and it then holds exactly the rows whose `shopping_list_id == list_id`, as `ListRows` keeps them |
| Repository.ListRowsKeepOrder | src/repository.py:195 | the rows of a list keep their order and repetitions: the rows of a concatenation are the rows of each part, and a single row is kept exactly when it is on the list |
| Repository.GetShoppingListItems | src/repository.py:189-195 | one request for all rows; its exception propagates; otherwise the result is `ShoppingListItems` |
| Repository.LocationsFollowRows | src/repository.py:168-178 | the locations are the rows with a non-null name and a non-null, convertible id, in order |
| Repository.CollectLocations | src/repository.py:167-178 | the location loop, over whatever the response iterates to, computes `Locations` |
| Repository.NonListLocations | src/repository.py:167-169 | in place of the location list, an empty object or string gives no locations, a non-empty one raises, and a non-container is not iterable |
| Repository.GetLocations | src/repository.py:164-178 | one request; its exception propagates; otherwise the result is `Locations` of the response, and on success the locations are the usable rows of what it iterates to, in order |
| Repository.AddStockEntry | src/repository.py:266-286 | one POST to `stock/products/{id}/add` with `amount` and `transaction_type: purchase` always, `best_before_date` iff truthy, `price` and `location_id` iff not None (0 kept), and no other key |
| Repository.ConsumeStockEntry | src/repository.py:288-303 | one POST to `stock/products/{id}/consume` with `amount`, `transaction_type: consume` and `spoiled` always, `location_id` iff not None, and no other key |
| Repository.InventoryProduct | src/repository.py:312-329 | one POST to `stock/products/{id}/inventory` with `new_amount` always, date and note iff truthy, location and price iff not None, and no other key |
| Repository.AddShoppingListItem | src/repository.py:206-214 | one POST to `objects/shopping_list` with product, amount and list id always, `note` iff truthy, and no other key |
| Repository.AddStockByBarcode | src/repository.py:360-375 | the purchase payload of `add_stock_entry`, posted to `stock/products/by-barcode/{barcode}/add` |
| Repository.ConsumeStockByBarcode | src/repository.py:386-398 | the consume payload of `consume_stock_entry`, posted to `stock/products/by-barcode/{barcode}/consume` |
| Repository.LinkBarcodeToProduct | src/repository.py:410-414 | one POST to `objects/product_barcodes` with product id and barcode always, `note` iff truthy, and no other key |
| Repository.ExpectObject | src/repository.py:249-251 | the reply passes iff it is an object; a non-object raises an assertion error; an exception propagates |
| Repository.ExpectList | src/repository.py:445-447 | the reply passes iff it is a list; a non-list raises an assertion error; an exception propagates |
| Repository.ObjectOrEmpty | src/repository.py:452-454 | the delete helpers accept an object or null, and then always return an object: null becomes `{}` and a non-empty object is kept |
| Tools.Fates | src/server.py:32-56 | there is one fate per input item |
| Tools.FateFollowsItem | src/server.py:32-56 | item `i` is unparsed iff it does not parse, refused for its amount iff that amount is <= 0, and booked or refused by the repository iff it parsed with a positive amount |
| Tools.BatchIsPartitioned | src/server.py:58-63 | `success_count + failure_count` equals the number of items |
| Tools.AddOne | src/server.py:33-56 | an item reaches the repository iff it parses with a positive amount, as its own purchase booking, and its fate follows the reply |
| Tools.PartitionNext | src/server.py:32-56 | one pass of the loop extends the bookings, the successes and the failures by that item's share only |
| Tools.AddStock | src/server.py:21-70 | one booking per accepted item, in input order; the successes and the failures are the booked and the other items, in input order; the counts are their lengths; `review_failed_items` is suggested iff something failed |
| Tools.ConsumeStock | src/server.py:73-119 | amount <= 0 is refused with no call; otherwise exactly one consume booking, and the envelope holds its result or its error with the matching next step |
| Tools.UpdateShoppingList | src/server.py:230-276 | an unknown action is refused first, then amount <= 0, neither with a call; `add` makes one shopping-list POST; `remove` deletes the item whose id is the product id |
| Tools.BuildNewProduct | src/server.py:348-363 | `qu_id_purchase` defaults to `qu_id_stock`; location, group and minimum amount iff not None; description iff truthy; no other key |
| Tools.CreateProduct | src/server.py:336-376 | exactly one POST of that payload; the envelope holds the product, or the payload and the error |
| Tools.ChangesKeepUnits | src/server.py:392-398 | name and the two units are in the update payload iff given, with their values |
| Tools.ChangesKeepPlacement | src/server.py:399-406 | location, group, minimum amount and description are in the update payload iff not None (an empty description included) |
| Tools.ChangesAreExact | src/server.py:392-406 | the update payload holds exactly the non-None arguments |
| Tools.BuildChanges | src/server.py:392-406 | the chain of `if`s builds exactly the non-None arguments |
| Tools.UpdateProductMasterData | src/server.py:379-423 | no call is made iff no field is given, and that case is an error; otherwise one PUT of exactly the given fields; the next step is always the master-data overview |
| Tools.InspectEntity | src/server.py:463-489 | an entity outside the six-name allowlist is refused with no call; otherwise one GET whose limit is kept when in 1..200 and is 50 otherwise |
| Tools.StockOnRecord | src/server.py:500-505 | a failed lookup, or a stock amount that does not convert, counts as 0 |
| Tools.StockOnRecordWhenSound | src/server.py:500-505 | with sound conversions a missing `stock_amount` counts as 0 and a recorded float is read as it is |
| Tools.DeleteProduct | src/server.py:492-552 | stock > 0 without cleanup refuses and never deletes; with cleanup it first consumes exactly that stock as spoiled, and deletes only if that succeeded; stock <= 0 (a failed lookup included) deletes at once; the envelope reports the delete's outcome |
| Tools.ReportDeletion | src/server.py:538-550 | after the delete call, an error is reported iff it failed, `stock_cleared` appears iff stock was cleared, and the next step follows the outcome |

## Left out

- The `asyncio.Lock` and concurrent callers: each `ensure_valid_token` call is one atomic step, so mutual exclusion and single-flight renewal are not modelled.
- The websocket and HTTP I/O: scripted message queues and an abstract per-attempt outcome stand in for them. JSON encoding and decoding are left out: a body either parses or does not.
- The 30-second HTTP timeout: a timeout is one more network error. The handshake has no timeout in the code, and none is added; a peer that never answers is not modelled, because a closed scripted queue raises instead.
- Opening the websocket: it is a `reachable` flag. When it is false, `websockets.connect` raises before anything is recorded.
- `int()`, `float()` and `str()` on JSON values: they are abstract conversions. `int(None)` and `float(None)` raise. Only `Repository.Sound` constrains them, and only the lemmas that assume it rely on it.
- Float arithmetic on amounts: amounts are reals, used only for sign checks and pass-through.
- `str.lower()` is ASCII-only lower-casing: Unicode case mapping is left out.
- The pydantic models and `ToolResponse`: parsing an `add_stock` item is an abstract parser, and the lax `int` validation of a product's optional id fields is the abstract `validateInt`; null ids and string names are modelled exactly. `item.dict()` appears only for `consume_stock`. The human-readable `summary` strings are left out.
- `str(exc)`: the error text is approximated by the failure's cause or status code.
- The `add_stock` envelope: each success or failure entry is a `Fate` value, not the `{"item": ..., "result"/"error": ...}` dictionary.
- Tools.AddStock: does not state how each entry is rendered, only which entries exist and where, for the reason above.
- The `print` logging: kept as a log of one entry per raised HTTP status error; the response body text is not part of it.
- FastMCP registration, the root server bootstrap and the settings: the API URL, API key and long-lived token are constructor arguments.
- The other repository helpers and tools (system info, quantity units, product groups, undo, barcode lookup, volatile stock, the other delete helpers' callers): they are not part of this model. Their deletes share `Repository.DeleteCall` and `Repository.ObjectOrEmpty`.
- The barcode helpers' `assert isinstance(result, dict)`: the helpers are modelled as the call they make. The check on their reply is `Repository.ExpectObject`, which no modelled tool applies to them.
- HaSession.ReplaceAll: its own contract states only that text without the pattern is unchanged. The replacement itself is pinned down for URLs with one leading scheme by `HaSession.ReplaceLeading` and the two URL lemmas.
- Dispatcher.Classify: its own contract states only that retries happen before the third attempt. The full retry rule is `Dispatcher.ClassifyRetriesIff`.
