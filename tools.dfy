/** The MCP tools that validate their arguments, call the repository and wrap
    the outcome in an envelope: a `data` object and the suggested `next`
    tools. Each tool also returns the calls it made, in order; the reply to
    the `n`-th call is `backend(n, call)`. */
module Tools {
  import opened Common
  import opened Dispatcher
  import opened Repository

  /** The `ToolResponse` envelope, less its human-readable summary. */
  datatype Envelope = Envelope(data: map<string, Json>, next: seq<string>)

  /** `str(exc)`. */
  function ErrorText(f: Failure): string
  {
    match f
    case HttpStatus(code) => "HTTP status " + IntToString(code)
    case Raised(cause) => cause
  }

  /** `error` is present exactly when `failed`. */
  predicate ReportsError(env: Envelope, failed: bool)
  {
    "error" in env.data <==> failed
  }

  // ---------------------------------------------------------------------
  // add_stock
  // ---------------------------------------------------------------------

  /** What the input model makes of one raw item, when it accepts it. */
  type StockItemParser = Json -> Option<StockItemInput>

  /** An item that parses and has a positive amount: only these reach the
      repository. */
  predicate Accepted(parse: StockItemParser, raw: Json)
  {
    parse(raw).Some? && parse(raw).value.amount > 0.0
  }

  /** The parsed items sent to the repository, in input order. */
  function SentItems(parse: StockItemParser, items: seq<Json>): seq<StockItemInput>
  {
    if items == [] then []
    else
      var n := |items| - 1;
      SentItems(parse, items[..n]) + (if Accepted(parse, items[n]) then [parse(items[n]).value] else [])
  }

  /** What became of one input item. */
  datatype Fate =
    | Unparsed(raw: Json)
    | NotPositive(item: StockItemInput)
    | Booked(item: StockItemInput, result: Json)
    | Refused(item: StockItemInput, failure: Failure)

  predicate Succeeded(f: Fate)
  {
    f.Booked?
  }

  predicate Failed(f: Fate)
  {
    !f.Booked?
  }

  /** The fate of one item, given the reply its booking got if it was sent. */
  function FateOf(parse: StockItemParser, raw: Json, reply: Reply): Fate
  {
    match parse(raw)
    case None => Unparsed(raw)
    case Some(item) =>
      if item.amount <= 0.0 then NotPositive(item)
      else match reply
        case Ok(result) => Booked(item, result)
        case Err(failure) => Refused(item, failure)
  }

  /** The fates of the items, where `replies` are the replies to the
      bookings, in order. */
  function Fates(parse: StockItemParser, replies: seq<Reply>, items: seq<Json>): (r: seq<Fate>)
    requires |replies| == |SentItems(parse, items)|
    ensures |r| == |items|
  {
    if items == [] then []
    else
      var n := |items| - 1;
      if Accepted(parse, items[n]) then
        Fates(parse, replies[..|replies| - 1], items[..n]) + [FateOf(parse, items[n], replies[|replies| - 1])]
      else
        Fates(parse, replies, items[..n]) + [FateOf(parse, items[n], Ok(JNull))]
  }

  lemma SentItemsNext(parse: StockItemParser, items: seq<Json>, i: nat)
    requires i < |items|
    ensures SentItems(parse, items[..i + 1]) ==
      SentItems(parse, items[..i]) + (if Accepted(parse, items[i]) then [parse(items[i]).value] else [])
  {
    assert items[..i + 1][..i] == items[..i];
  }

  /** One more item extends the fates by the fate of that item. */
  lemma FatesNext(parse: StockItemParser, replies: seq<Reply>, items: seq<Json>, i: nat, reply: Reply)
    requires i < |items| && |replies| == |SentItems(parse, items[..i])|
    ensures var more := if Accepted(parse, items[i]) then replies + [reply] else replies;
      && |more| == |SentItems(parse, items[..i + 1])|
      && Fates(parse, more, items[..i + 1]) == Fates(parse, replies, items[..i]) + [FateOf(parse, items[i], reply)]
  {
    SentItemsNext(parse, items, i);
    assert items[..i + 1][..i] == items[..i];
    if Accepted(parse, items[i]) {
      assert (replies + [reply])[..|replies|] == replies;
    }
  }

  /** The replies the backend gave to `calls`. */
  function Replies(backend: Backend, calls: seq<ApiCall>): (r: seq<Reply>)
    ensures |r| == |calls|
  {
    seq(|calls|, j requires 0 <= j < |calls| => backend(j, calls[j]))
  }

  lemma RepliesNext(backend: Backend, calls: seq<ApiCall>, call: ApiCall)
    ensures Replies(backend, calls + [call]) == Replies(backend, calls) + [backend(|calls|, call)]
  {
    var longer := Replies(backend, calls + [call]);
    forall j | 0 <= j < |longer|
      ensures longer[j] == (Replies(backend, calls) + [backend(|calls|, call)])[j]
    {
      if j < |calls| {
        assert (calls + [call])[j] == calls[j];
      }
    }
  }

  /** Item `i` has the fate its own input dictates: unparsed exactly when it
      does not parse, refused for its amount exactly when that is not
      positive, and booked or refused by the repository exactly when it was
      accepted. */
  lemma {:induction false} FateFollowsItem(parse: StockItemParser, replies: seq<Reply>, items: seq<Json>, i: nat)
    requires |replies| == |SentItems(parse, items)| && i < |items|
    ensures var f := Fates(parse, replies, items)[i];
      && (f.Unparsed? <==> parse(items[i]).None?)
      && (f.Unparsed? ==> f.raw == items[i])
      && (!f.Unparsed? ==> parse(items[i]) == Some(f.item))
      && (f.NotPositive? <==> parse(items[i]).Some? && parse(items[i]).value.amount <= 0.0)
      && (f.Booked? || f.Refused? <==> Accepted(parse, items[i]))
  {
    var n := |items| - 1;
    if i < n {
      assert items[..n][i] == items[i];
      if Accepted(parse, items[n]) {
        FateFollowsItem(parse, replies[..|replies| - 1], items[..n], i);
      } else {
        FateFollowsItem(parse, replies, items[..n], i);
      }
    }
  }

  /** Every item lands in exactly one of the two lists, so the counts add up
      to the number of items. */
  lemma BatchIsPartitioned(parse: StockItemParser, replies: seq<Reply>, items: seq<Json>)
    requires |replies| == |SentItems(parse, items)|
    ensures |Filter(Succeeded, Fates(parse, replies, items))| + |Filter(Failed, Fates(parse, replies, items))| == |items|
  {
    FilterPartition(Succeeded, Failed, Fates(parse, replies, items));
  }

  /** The `data` of the `add_stock` envelope, less the rendering of each entry. */
  datatype BatchReport = BatchReport(
    successCount: nat,
    failureCount: nat,
    successes: seq<Fate>,
    failures: seq<Fate>,
    next: seq<string>)

  /** A booking of a parsed item. */
  predicate BooksItem(call: ApiCall, item: StockItemInput)
  {
    BooksPurchase(call, ProductPath(item.productId, "add"), item.amount, item.bestBeforeDate, item.price, item.locationId)
  }

  /** The `j`-th call books the `j`-th item, and there are as many calls as items. */
  predicate BooksEach(calls: seq<ApiCall>, sent: seq<StockItemInput>)
  {
    |calls| == |sent| && forall j :: 0 <= j < |calls| ==> BooksItem(calls[j], sent[j])
  }

  lemma BooksEachNext(calls: seq<ApiCall>, sent: seq<StockItemInput>, call: ApiCall, item: StockItemInput)
    requires BooksEach(calls, sent) && BooksItem(call, item)
    ensures BooksEach(calls + [call], sent + [item])
  {
  }

  /** One pass of the `add_stock` loop, after `sent` bookings: an item that
      does not parse or has a non-positive amount is a failure without a
      call; any other is booked, and succeeds exactly when the booking does. */
  method AddOne(parse: StockItemParser, backend: Backend, raw: Json, sent: nat) returns (fate: Fate, booking: Option<ApiCall>)
    ensures booking.Some? <==> Accepted(parse, raw)
    ensures booking.Some? ==> BooksItem(booking.value, parse(raw).value)
    ensures fate == FateOf(parse, raw, if booking.Some? then backend(sent, booking.value) else Ok(JNull))
  {
    var parsed := parse(raw);
    if parsed.None? {
      return Unparsed(raw), None;
    }
    var item := parsed.value;
    if item.amount <= 0.0 {
      return NotPositive(item), None;
    }
    var call := AddStockEntry(item);
    booking := Some(call);
    var result := backend(sent, call);
    if result.Ok? {
      fate := Booked(item, result.value);
    } else {
      fate := Refused(item, result.failure);
    }
  }

  /** The state of the `add_stock` loop after the first `i` items: the
      calls book the accepted ones, and the two lists hold the succeeded and
      the failed ones, in order. */
  predicate Partitioned(parse: StockItemParser, backend: Backend, items: seq<Json>, i: nat,
                        calls: seq<ApiCall>, successes: seq<Fate>, failures: seq<Fate>)
    requires i <= |items|
  {
    && BooksEach(calls, SentItems(parse, items[..i]))
    && successes == Filter(Succeeded, Fates(parse, Replies(backend, calls), items[..i]))
    && failures == Filter(Failed, Fates(parse, Replies(backend, calls), items[..i]))
  }

  /** One pass of the loop keeps the partition. */
  lemma PartitionNext(parse: StockItemParser, backend: Backend, items: seq<Json>, i: nat,
                      calls: seq<ApiCall>, successes: seq<Fate>, failures: seq<Fate>, fate: Fate, booking: Option<ApiCall>)
    requires i < |items| && Partitioned(parse, backend, items, i, calls, successes, failures)
    requires booking.Some? <==> Accepted(parse, items[i])
    requires booking.Some? ==> BooksItem(booking.value, parse(items[i]).value)
    requires fate == FateOf(parse, items[i], if booking.Some? then backend(|calls|, booking.value) else Ok(JNull))
    ensures Partitioned(parse, backend, items, i + 1,
                        if booking.Some? then calls + [booking.value] else calls,
                        if Succeeded(fate) then successes + [fate] else successes,
                        if Succeeded(fate) then failures else failures + [fate])
  {
    var replies := Replies(backend, calls);
    var reply: Reply := if booking.Some? then backend(|calls|, booking.value) else Ok(JNull);
    var calls' := if booking.Some? then calls + [booking.value] else calls;
    var done := Fates(parse, replies, items[..i]);
    SentItemsNext(parse, items, i);
    assert BooksEach(calls', SentItems(parse, items[..i + 1])) by {
      if booking.Some? {
        BooksEachNext(calls, SentItems(parse, items[..i]), booking.value, parse(items[i]).value);
      }
    }
    if booking.Some? {
      RepliesNext(backend, calls, booking.value);
    }
    assert Fates(parse, Replies(backend, calls'), items[..i + 1]) == done + [fate] by {
      FatesNext(parse, replies, items, i, reply);
    }
    FilterSnoc(Succeeded, done, fate);
    FilterSnoc(Failed, done, fate);
  }

  /** `add_stock`: one booking per accepted item, in order; the successes
      and failures are the booked and the other items, in input order; the
      review step is suggested exactly when something failed. */
  method AddStock(parse: StockItemParser, backend: Backend, items: seq<Json>) returns (report: BatchReport, calls: seq<ApiCall>)
    ensures BooksEach(calls, SentItems(parse, items))
    ensures report.successes == Filter(Succeeded, Fates(parse, Replies(backend, calls), items))
    ensures report.failures == Filter(Failed, Fates(parse, Replies(backend, calls), items))
    ensures report.successCount == |report.successes| && report.failureCount == |report.failures|
    ensures report.next == if report.failures == [] then [] else ["review_failed_items"]
  {
    var successes: seq<Fate> := [];
    var failures: seq<Fate> := [];
    calls := [];
    var i := 0;
    while i < |items|
      invariant 0 <= i <= |items|
      invariant Partitioned(parse, backend, items, i, calls, successes, failures)
    {
      var fate, booking := AddOne(parse, backend, items[i], |calls|);
      PartitionNext(parse, backend, items, i, calls, successes, failures, fate, booking);
      if booking.Some? {
        calls := calls + [booking.value];
      }
      if Succeeded(fate) {
        successes := successes + [fate];
      } else {
        failures := failures + [fate];
      }
      i := i + 1;
    }
    assert items[..i] == items;
    var next: seq<string> := [];
    if failures != [] {
      next := next + ["review_failed_items"];
    }
    report := BatchReport(|successes|, |failures|, successes, failures, next);
  }

  // ---------------------------------------------------------------------
  // consume_stock
  // ---------------------------------------------------------------------

  /** `ConsumeItemInput.dict()`. */
  function ConsumeItemJson(item: ConsumeItemInput): Json
  {
    JObj(map[
      "product_id" := JInt(item.productId),
      "amount" := JReal(item.amount),
      "spoiled" := JBool(item.spoiled),
      "location_id" := IntOrNull(item.locationId),
      "idempotency_key" := StrOrNull(item.idempotencyKey)])
  }

  /** `consume_stock`: a non-positive amount is refused before any call;
      otherwise one consume booking, and the envelope carries its result or
      its error. */
  method ConsumeStock(backend: Backend, productId: int, amount: real, spoiled: bool, locationId: Option<int>, idempotencyKey: Option<string>)
    returns (env: Envelope, calls: seq<ApiCall>)
    ensures "item" in env.data && env.data["item"] == ConsumeItemJson(ConsumeItemInput(productId, amount, spoiled, locationId, idempotencyKey))
    ensures amount <= 0.0 ==> calls == [] && ReportsError(env, true) && env.next == ["search_products"]
    ensures amount > 0.0 ==>
      && |calls| == 1
      && BooksConsumption(calls[0], ProductPath(productId, "consume"), amount, spoiled, locationId)
      && ReportsError(env, backend(0, calls[0]).Err?)
      && (backend(0, calls[0]).Ok? ==> "result" in env.data && env.data["result"] == backend(0, calls[0]).value)
      && env.next == if backend(0, calls[0]).Ok? then ["get_stock_volatile"] else ["search_products"]
  {
    var item := ConsumeItemInput(productId, amount, spoiled, locationId, idempotencyKey);
    if item.amount <= 0.0 {
      var data := map["item" := ConsumeItemJson(item), "error" := JStr("Amount must be greater than 0")];
      return Envelope(data, ["search_products"]), [];
    }
    var call := ConsumeStockEntry(item);
    calls := [call];
    var reply := backend(0, call);
    if reply.Ok? {
      env := Envelope(map["item" := ConsumeItemJson(item), "result" := reply.value], ["get_stock_volatile"]);
    } else {
      env := Envelope(map["item" := ConsumeItemJson(item), "error" := JStr(ErrorText(reply.failure))], ["search_products"]);
    }
  }

  // ---------------------------------------------------------------------
  // update_shopping_list
  // ---------------------------------------------------------------------

  /** `update_shopping_list`: an unknown action is refused first, then a
      non-positive amount, neither with a call; `add` puts the product on the
      list, and `remove` deletes the shopping-list item whose id is the
      product id. */
  method UpdateShoppingList(backend: Backend, action: string, listId: int, productId: int, amount: real, note: Option<string>)
    returns (env: Envelope, calls: seq<ApiCall>)
    ensures action != "add" && action != "remove" ==>
      calls == [] && ReportsError(env, true) && env.next == ["get_shopping_lists"]
    ensures (action == "add" || action == "remove") && amount <= 0.0 ==>
      calls == [] && ReportsError(env, true) && env.next == ["get_shopping_list_items"]
    ensures (action == "add" || action == "remove") && amount > 0.0 ==>
      |calls| == 1 && env.next == ["get_shopping_list_items"]
    ensures action == "add" && amount > 0.0 ==>
      && AddsToShoppingList(calls[0], listId, productId, amount, note)
      && ReportsError(env, ExpectObject(backend(0, calls[0])).Err?)
      && (ExpectObject(backend(0, calls[0])).Ok? ==> "result" in env.data && env.data["result"] == backend(0, calls[0]).value)
    ensures action == "remove" && amount > 0.0 ==>
      && calls[0] == DeleteCall(ShoppingListItemRow, productId)
      && ReportsError(env, ObjectOrEmpty(backend(0, calls[0])).Err?)
      && (ObjectOrEmpty(backend(0, calls[0])).Ok? ==>
            && "item_id" in env.data && env.data["item_id"] == JInt(productId)
            && "result" in env.data && env.data["result"] == ObjectOrEmpty(backend(0, calls[0])).value)
  {
    if action != "add" && action != "remove" {
      var data := map["action" := JStr(action), "error" := JStr("Invalid action. Use 'add' or 'remove'.")];
      return Envelope(data, ["get_shopping_lists"]), [];
    }
    if amount <= 0.0 {
      var data := map["amount" := JReal(amount), "error" := JStr("Amount must be > 0.")];
      return Envelope(data, ["get_shopping_list_items"]), [];
    }
    var result: Reply;
    var data: map<string, Json>;
    if action == "add" {
      var call := AddShoppingListItem(listId, productId, amount, note);
      calls := [call];
      result := ExpectObject(backend(0, call));
      if result.Ok? {
        data := map["action" := JStr(action), "list_id" := JInt(listId), "product_id" := JInt(productId),
                    "amount" := JReal(amount), "result" := result.value];
      }
    } else {
      var itemId := productId;
      var call := DeleteCall(ShoppingListItemRow, itemId);
      calls := [call];
      result := ObjectOrEmpty(backend(0, call));
      if result.Ok? {
        data := map["action" := JStr(action), "item_id" := JInt(itemId), "result" := result.value];
      }
    }
    if result.Err? {
      data := map["action" := JStr(action), "list_id" := JInt(listId), "product_id" := JInt(productId),
                  "amount" := JReal(amount), "error" := JStr(ErrorText(result.failure))];
    }
    env := Envelope(data, ["get_shopping_list_items"]);
  }

  // ---------------------------------------------------------------------
  // create_product and update_product_master_data
  // ---------------------------------------------------------------------

  /** The payload of `create_product`: the purchase unit defaults to the
      stock unit; the location, group and minimum amount are sent whenever
      given, the description only when truthy. */
  predicate NewProductPayload(d: Payload, name: string, quIdStock: int, quIdPurchase: Option<int>, locationId: Option<int>,
                              productGroupId: Option<int>, minStockAmount: Option<real>, description: Option<string>)
  {
    && d.Keys <= {"name", "qu_id_stock", "qu_id_purchase", "location_id", "product_group_id", "min_stock_amount", "description"}
    && "name" in d && d["name"] == JStr(name)
    && "qu_id_stock" in d && d["qu_id_stock"] == JInt(quIdStock)
    && "qu_id_purchase" in d
    && (quIdPurchase.None? ==> d["qu_id_purchase"] == d["qu_id_stock"])
    && (quIdPurchase.Some? ==> d["qu_id_purchase"] == JInt(quIdPurchase.value))
    && OptionalKey(d, "location_id", locationId.Some?, IntOrNull(locationId))
    && OptionalKey(d, "product_group_id", productGroupId.Some?, IntOrNull(productGroupId))
    && OptionalKey(d, "min_stock_amount", minStockAmount.Some?, RealOrNull(minStockAmount))
    && OptionalKey(d, "description", Truthy(description), StrOrNull(description))
  }

  /** The payload construction of `create_product`. */
  method BuildNewProduct(name: string, quIdStock: int, quIdPurchase: Option<int>, locationId: Option<int>,
                         productGroupId: Option<int>, minStockAmount: Option<real>, description: Option<string>)
    returns (payload: Payload)
    ensures NewProductPayload(payload, name, quIdStock, quIdPurchase, locationId, productGroupId, minStockAmount, description)
  {
    var purchaseUnit := if quIdPurchase.None? then quIdStock else quIdPurchase.value;
    payload := map["name" := JStr(name), "qu_id_stock" := JInt(quIdStock), "qu_id_purchase" := JInt(purchaseUnit)];
    if locationId.Some? {
      payload := payload["location_id" := JInt(locationId.value)];
    }
    if productGroupId.Some? {
      payload := payload["product_group_id" := JInt(productGroupId.value)];
    }
    if minStockAmount.Some? {
      payload := payload["min_stock_amount" := JReal(minStockAmount.value)];
    }
    if Truthy(description) {
      payload := payload["description" := JStr(description.value)];
    }
  }

  /** `create_product`: one POST of the new product's payload; the envelope
      carries the created product, or the payload and the error. */
  method CreateProduct(backend: Backend, name: string, quIdStock: int, quIdPurchase: Option<int>, locationId: Option<int>,
                       productGroupId: Option<int>, minStockAmount: Option<real>, description: Option<string>)
    returns (env: Envelope, calls: seq<ApiCall>)
    ensures |calls| == 1 && calls[0].verb == POST && calls[0].endpoint == "objects/products" && calls[0].params.None?
    ensures calls[0].data.Some?
    ensures NewProductPayload(calls[0].data.value, name, quIdStock, quIdPurchase, locationId, productGroupId, minStockAmount, description)
    ensures var reply := ExpectObject(backend(0, calls[0]));
      && ReportsError(env, reply.Err?)
      && (reply.Ok? ==> env.data == map["product" := reply.value] && env.next == ["set_inventory_levels", "link_barcode_to_product"])
      && (reply.Err? ==> "payload" in env.data && env.data["payload"] == JObj(calls[0].data.value) && env.next == ["get_master_data_overview"])
  {
    var payload := BuildNewProduct(name, quIdStock, quIdPurchase, locationId, productGroupId, minStockAmount, description);
    var call := CreateProductCall(payload);
    calls := [call];
    var result := ExpectObject(backend(0, call));
    if result.Ok? {
      env := Envelope(map["product" := result.value], ["set_inventory_levels", "link_barcode_to_product"]);
    } else {
      env := Envelope(map["payload" := JObj(payload), "error" := JStr(ErrorText(result.failure))], ["get_master_data_overview"]);
    }
  }

  /** The optional master-data fields of a product. */
  datatype ProductChanges = ProductChanges(
    name: Option<string>,
    quIdStock: Option<int>,
    quIdPurchase: Option<int>,
    locationId: Option<int>,
    productGroupId: Option<int>,
    minStockAmount: Option<real>,
    description: Option<string>)

  /** No field is given. */
  predicate NoChanges(ch: ProductChanges)
  {
    && ch.name.None? && ch.quIdStock.None? && ch.quIdPurchase.None? && ch.locationId.None?
    && ch.productGroupId.None? && ch.minStockAmount.None? && ch.description.None?
  }

  /** The payload holds exactly the given fields. */
  predicate ChangesPayload(d: Payload, ch: ProductChanges)
  {
    && d.Keys <= {"name", "qu_id_stock", "qu_id_purchase", "location_id", "product_group_id", "min_stock_amount", "description"}
    && UnitChanges(d, ch)
    && PlacementChanges(d, ch)
  }

  /** The name and the two units are present exactly when given. */
  predicate UnitChanges(d: Payload, ch: ProductChanges)
  {
    && OptionalKey(d, "name", ch.name.Some?, StrOrNull(ch.name))
    && OptionalKey(d, "qu_id_stock", ch.quIdStock.Some?, IntOrNull(ch.quIdStock))
    && OptionalKey(d, "qu_id_purchase", ch.quIdPurchase.Some?, IntOrNull(ch.quIdPurchase))
  }

  /** The location, group, minimum amount and description are present
      exactly when given. */
  predicate PlacementChanges(d: Payload, ch: ProductChanges)
  {
    && OptionalKey(d, "location_id", ch.locationId.Some?, IntOrNull(ch.locationId))
    && OptionalKey(d, "product_group_id", ch.productGroupId.Some?, IntOrNull(ch.productGroupId))
    && OptionalKey(d, "min_stock_amount", ch.minStockAmount.Some?, RealOrNull(ch.minStockAmount))
    && OptionalKey(d, "description", ch.description.Some?, StrOrNull(ch.description))
  }

  /** The payload `update_product_master_data` builds, one conditional
      insertion per field. */
  function Changes(ch: ProductChanges): Payload
  {
    var d0: Payload := map[];
    var d1 := if ch.name.Some? then d0["name" := JStr(ch.name.value)] else d0;
    var d2 := if ch.quIdStock.Some? then d1["qu_id_stock" := JInt(ch.quIdStock.value)] else d1;
    var d3 := if ch.quIdPurchase.Some? then d2["qu_id_purchase" := JInt(ch.quIdPurchase.value)] else d2;
    var d4 := if ch.locationId.Some? then d3["location_id" := JInt(ch.locationId.value)] else d3;
    var d5 := if ch.productGroupId.Some? then d4["product_group_id" := JInt(ch.productGroupId.value)] else d4;
    var d6 := if ch.minStockAmount.Some? then d5["min_stock_amount" := JReal(ch.minStockAmount.value)] else d5;
    if ch.description.Some? then d6["description" := JStr(ch.description.value)] else d6
  }

  lemma ChangesKeepUnits(ch: ProductChanges)
    ensures UnitChanges(Changes(ch), ch)
  {
  }

  lemma ChangesKeepPlacement(ch: ProductChanges)
    ensures PlacementChanges(Changes(ch), ch)
  {
  }

  /** The payload holds exactly the given fields, and nothing else. */
  lemma ChangesAreExact(ch: ProductChanges)
    ensures ChangesPayload(Changes(ch), ch)
  {
    ChangesKeepUnits(ch);
    ChangesKeepPlacement(ch);
  }

  /** The payload construction of `update_product_master_data`. */
  method BuildChanges(ch: ProductChanges) returns (payload: Payload)
    ensures payload == Changes(ch)
    ensures ChangesPayload(payload, ch)
  {
    payload := map[];
    if ch.name.Some? {
      payload := payload["name" := JStr(ch.name.value)];
    }
    if ch.quIdStock.Some? {
      payload := payload["qu_id_stock" := JInt(ch.quIdStock.value)];
    }
    if ch.quIdPurchase.Some? {
      payload := payload["qu_id_purchase" := JInt(ch.quIdPurchase.value)];
    }
    if ch.locationId.Some? {
      payload := payload["location_id" := JInt(ch.locationId.value)];
    }
    if ch.productGroupId.Some? {
      payload := payload["product_group_id" := JInt(ch.productGroupId.value)];
    }
    if ch.minStockAmount.Some? {
      payload := payload["min_stock_amount" := JReal(ch.minStockAmount.value)];
    }
    if ch.description.Some? {
      payload := payload["description" := JStr(ch.description.value)];
    }
    ChangesAreExact(ch);
  }

  /** `update_product_master_data`: with no field given, an error and no
      call; otherwise one PUT carrying exactly the given fields (an empty
      description included). */
  method UpdateProductMasterData(backend: Backend, productId: int, ch: ProductChanges) returns (env: Envelope, calls: seq<ApiCall>)
    ensures env.next == ["get_master_data_overview"]
    ensures calls == [] <==> NoChanges(ch)
    ensures NoChanges(ch) ==> ReportsError(env, true)
    ensures !NoChanges(ch) ==>
      && |calls| == 1 && calls[0].verb == PUT && calls[0].endpoint == "objects/products/" + IntToString(productId)
      && calls[0].params.None? && calls[0].data.Some? && ChangesPayload(calls[0].data.value, ch)
      && ReportsError(env, ExpectObject(backend(0, calls[0])).Err?)
      && (ExpectObject(backend(0, calls[0])).Ok? ==> "result" in env.data && env.data["result"] == backend(0, calls[0]).value)
  {
    var payload := BuildChanges(ch);
    if payload == map[] {
      assert "name" !in payload && "qu_id_stock" !in payload && "qu_id_purchase" !in payload && "location_id" !in payload;
      assert "product_group_id" !in payload && "min_stock_amount" !in payload && "description" !in payload;
      var data := map["product_id" := JInt(productId), "error" := JStr("No fields provided to update.")];
      return Envelope(data, ["get_master_data_overview"]), [];
    }
    var call := UpdateProductCall(productId, payload);
    calls := [call];
    var result := ExpectObject(backend(0, call));
    if result.Ok? {
      env := Envelope(map["product_id" := JInt(productId), "changes" := JObj(payload), "result" := result.value], ["get_master_data_overview"]);
    } else {
      env := Envelope(map["product_id" := JInt(productId), "changes" := JObj(payload), "error" := JStr(ErrorText(result.failure))],
                      ["get_master_data_overview"]);
    }
  }

  // ---------------------------------------------------------------------
  // inspect_entity
  // ---------------------------------------------------------------------

  /** The collections `inspect_entity` may read. */
  const AllowedInspectEntities: seq<string> := ["products", "locations", "quantity_units", "product_groups", "tasks", "chores"]

  /** `inspect_entity`: an entity outside the allowlist is refused without a
      call; a limit outside 1..200 becomes 50 and any other is kept. */
  method InspectEntity(backend: Backend, entity: string, limit: int, offset: int) returns (env: Envelope, calls: seq<ApiCall>)
    ensures entity !in AllowedInspectEntities ==> calls == [] && ReportsError(env, true) && env.next == []
    ensures entity in AllowedInspectEntities ==>
      && |calls| == 1 && calls[0].verb == GET && calls[0].endpoint == "objects/" + entity && calls[0].data.None?
      && calls[0].params.Some? && calls[0].params.value.Keys == {"limit", "offset"}
      && calls[0].params.value["offset"] == JInt(offset)
      && var sent := calls[0].params.value["limit"];
        && sent.JInt? && 1 <= sent.i <= 200
        && (1 <= limit <= 200 ==> sent.i == limit)
        && (!(1 <= limit <= 200) ==> sent.i == 50)
    ensures entity in AllowedInspectEntities ==>
      var reply := ExpectList(backend(0, calls[0]));
      && ReportsError(env, reply.Err?)
      && (reply.Ok? ==> "rows" in env.data && env.data["rows"] == reply.value && env.next == ["get_master_data_overview"])
      && (reply.Err? ==> env.next == [])
  {
    if entity !in AllowedInspectEntities {
      var data := map["entity" := JStr(entity), "error" := JStr("Entity not allowed for inspection.")];
      return Envelope(data, []), [];
    }
    var effective := limit;
    if effective <= 0 || effective > 200 {
      effective := 50;
    }
    var call := InspectEntityCall(entity, effective, offset);
    calls := [call];
    var rows := ExpectList(backend(0, call));
    if rows.Ok? {
      var data := map["entity" := JStr(entity), "limit" := JInt(effective), "offset" := JInt(offset), "rows" := rows.value];
      env := Envelope(data, ["get_master_data_overview"]);
    } else {
      env := Envelope(map["entity" := JStr(entity), "error" := JStr(ErrorText(rows.failure))], []);
    }
  }

  // ---------------------------------------------------------------------
  // delete_product
  // ---------------------------------------------------------------------

  /** The stock `delete_product` goes by: `float(details.get("stock_amount",
      0.0))`, or 0 when the lookup or the conversion raises. */
  function StockOnRecord(c: Conversions, details: Reply): (r: real)
    ensures details.Err? ==> r == 0.0
    ensures details.Ok? && details.value.JObj? ==>
      r == match PyFloat(c, GetOr(details.value.fields, "stock_amount", JReal(0.0)))
           case Some(x) => x
           case None => 0.0
  {
    if details.Err? || !details.value.JObj? then 0.0
    else match PyFloat(c, GetOr(details.value.fields, "stock_amount", JReal(0.0)))
      case Some(x) => x
      case None => 0.0
  }

  /** With sound conversions, a product without `stock_amount` has no stock
      on record, and a recorded float is read as it is. */
  lemma StockOnRecordWhenSound(c: Conversions, x: real)
    requires Sound(c)
    ensures StockOnRecord(c, Ok(JObj(map[]))) == 0.0
    ensures StockOnRecord(c, Ok(JObj(map["stock_amount" := JReal(x)]))) == x
  {
  }

  /** `delete_product`: with stock on record and no cleanup, it refuses and
      never deletes; with cleanup it first consumes exactly that stock as
      spoiled and deletes only if that succeeded; with no stock on record
      (including a failed lookup) it deletes straight away. */
  method DeleteProduct(c: Conversions, backend: Backend, productId: int, cleanupStock: bool) returns (env: Envelope, calls: seq<ApiCall>)
    ensures |calls| >= 1 && calls[0] == ProductStockDetailsCall(productId)
    ensures var stock := StockOnRecord(c, ExpectObject(backend(0, calls[0])));
      && (stock > 0.0 && !cleanupStock ==> |calls| == 1 && ReportsError(env, true) && env.next == ["consume_stock"])
      && (stock > 0.0 && cleanupStock ==>
            && |calls| >= 2
            && BooksConsumption(calls[1], ProductPath(productId, "consume"), stock, true, None)
            && (backend(1, calls[1]).Err? ==> |calls| == 2 && ReportsError(env, true) && env.next == ["consume_stock"])
            && (backend(1, calls[1]).Ok? ==> |calls| == 3 && calls[2] == DeleteCall(ProductRow, productId)))
      && (stock <= 0.0 ==> |calls| == 2 && calls[1] == DeleteCall(ProductRow, productId))
    ensures DeleteCall(ProductRow, productId) == calls[|calls| - 1] ==>
      var deleted := ObjectOrEmpty(backend(|calls| - 1, calls[|calls| - 1]));
      && ReportsError(env, deleted.Err?)
      && env.next == (if deleted.Ok? then ["get_master_data_overview"] else ["inspect_entity"])
      && (deleted.Ok? ==> "result" in env.data && env.data["result"] == deleted.value)
      && (deleted.Ok? ==> ("stock_cleared" in env.data <==> StockOnRecord(c, ExpectObject(backend(0, calls[0]))) > 0.0))
  {
    var lookup := ProductStockDetailsCall(productId);
    calls := [lookup];
    var details := ExpectObject(backend(0, lookup));
    var stockAmount := StockOnRecord(c, details);
    if stockAmount > 0.0 {
      if !cleanupStock {
        var data := map["product_id" := JInt(productId), "stock_amount" := JReal(stockAmount),
                        "error" := JStr("Product has existing stock.")];
        return Envelope(data, ["consume_stock"]), calls;
      }
      var consume := ConsumeStockEntry(ConsumeItemInput(productId, stockAmount, true, None, None));
      calls := calls + [consume];
      var cleared := backend(1, consume);
      if cleared.Err? {
        var data := map["product_id" := JInt(productId), "stock_amount" := JReal(stockAmount),
                        "error" := JStr("Failed to cleanup stock: " + ErrorText(cleared.failure))];
        return Envelope(data, ["consume_stock"]), calls;
      }
    }
    var delete := DeleteCall(ProductRow, productId);
    env := ReportDeletion(productId, stockAmount, ObjectOrEmpty(backend(|calls|, delete)));
    calls := calls + [delete];
  }

  /** The closing step of `delete_product`: the envelope for the outcome of
      the delete call, naming the cleared stock when there was any. */
  method ReportDeletion(productId: int, stockAmount: real, deleted: Result<Json>) returns (env: Envelope)
    ensures ReportsError(env, deleted.Err?)
    ensures env.next == (if deleted.Ok? then ["get_master_data_overview"] else ["inspect_entity"])
    ensures deleted.Ok? ==> "result" in env.data && env.data["result"] == deleted.value
    ensures deleted.Ok? ==> ("stock_cleared" in env.data <==> stockAmount > 0.0)
  {
    if deleted.Ok? {
      var data := map["product_id" := JInt(productId), "result" := deleted.value];
      if stockAmount > 0.0 {
        data := data["stock_cleared" := JReal(stockAmount)];
      }
      env := Envelope(data, ["get_master_data_overview"]);
    } else {
      env := Envelope(map["product_id" := JInt(productId), "error" := JStr(ErrorText(deleted.failure))], ["inspect_entity"]);
    }
  }
}
