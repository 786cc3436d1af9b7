/** The data shaping of `GrocyRepository`: the product list merged with the
    stock list, the name search, the location list, the rows of one shopping
    list, the request payloads built key by key, and the checks and
    normalisation applied to what `_request` returns.

    `int()` and `float()` are abstract conversions, passed in as functions;
    `_request` itself is a `Backend`, the reply to each call an operation
    makes, numbered from 0. */
module Repository {
  import opened Common
  import opened Dispatcher

  /** The reply `_request` gives to the `n`-th call of one operation. */
  type Backend = (nat, ApiCall) -> Reply

  /** Python's `int(v)`, `float(v)` and `str(v)` on a JSON value, where they
      succeed, and pydantic's validation of a non-null value for an `int`
      field. */
  datatype Conversions = Conversions(
    toInt: Json -> Option<int>,
    toReal: Json -> Option<real>,
    toStr: Json -> string,
    validateInt: Json -> Option<int>)

  /** Conversions that agree with Python on the values that need no
      conversion: an int converts to itself and a float to itself. */
  ghost predicate Sound(c: Conversions)
  {
    && (forall i :: c.toInt(JInt(i)) == Some(i))
    && (forall i :: c.validateInt(JInt(i)) == Some(i))
    && (forall x :: c.toReal(JReal(x)) == Some(x))
  }

  /** `int(v)`; `int(None)` raises, which the callers treat as "no id". */
  function PyInt(c: Conversions, v: Json): Option<int>
  {
    if v.JNull? then None else c.toInt(v)
  }

  /** `float(v)`; `float(None)` raises. */
  function PyFloat(c: Conversions, v: Json): Option<real>
  {
    if v.JNull? then None else c.toReal(v)
  }

  const AttributeError := Raised("AttributeError: object has no attribute 'get'")
  const AssertionError := Raised("AssertionError")
  const NotIterable := Raised("TypeError: object is not iterable")
  const ValidationError := Raised("ValidationError: ProductCandidate")

  /** What `for x in v` gives a loop whose body starts with `x.get(...)`: a
      list yields its items, and an empty object or string yields nothing.
      A non-empty object or string yields a string first, which has no
      `get`, so the loop raises; any other value is not iterable. */
  function Iterate(v: Json): Result<seq<Json>>
  {
    match v
    case JArr(items) => Ok(items)
    case JObj(fields) => if fields == map[] then Ok([]) else Err(AttributeError)
    case JStr(text) => if text == "" then Ok([]) else Err(AttributeError)
    case _ => Err(NotIterable)
  }

  // ---------------------------------------------------------------------
  // Filters and folds
  // ---------------------------------------------------------------------

  /** The list comprehension `[x for x in xs if keep(x)]`. */
  function Filter<T(!new)>(keep: T -> bool, xs: seq<T>): (r: seq<T>)
    ensures |r| <= |xs|
  {
    if xs == [] then [] else (if keep(xs[0]) then [xs[0]] else []) + Filter(keep, xs[1..])
  }

  /** The filter keeps exactly the elements that pass. */
  lemma {:induction false} FilterMembers<T(!new)>(keep: T -> bool, xs: seq<T>)
    ensures forall x :: x in Filter(keep, xs) <==> x in xs && keep(x)
  {
    if xs != [] {
      FilterMembers(keep, xs[1..]);
      assert xs == [xs[0]] + xs[1..];
    }
  }

  /** Filtering keeps the order: it distributes over concatenation. */
  lemma {:induction false} FilterAppend<T(!new)>(keep: T -> bool, xs: seq<T>, ys: seq<T>)
    ensures Filter(keep, xs + ys) == Filter(keep, xs) + Filter(keep, ys)
  {
    if xs != [] {
      var head := if keep(xs[0]) then [xs[0]] else [];
      assert (xs + ys)[0] == xs[0];
      assert (xs + ys)[1..] == xs[1..] + ys;
      FilterAppend(keep, xs[1..], ys);
      assert Filter(keep, xs + ys) == head + Filter(keep, xs[1..] + ys);
      assert Filter(keep, xs) == head + Filter(keep, xs[1..]);
    } else {
      assert xs + ys == ys;
    }
  }

  /** Filtering one more element appends it when it passes. */
  lemma FilterSnoc<T(!new)>(keep: T -> bool, xs: seq<T>, x: T)
    ensures Filter(keep, xs + [x]) == Filter(keep, xs) + (if keep(x) then [x] else [])
  {
    FilterAppend(keep, xs, [x]);
    assert [x][1..] == [];
  }

  /** A filter that rejects nothing is the identity. */
  lemma {:induction false} FilterKeepsAll<T(!new)>(keep: T -> bool, xs: seq<T>)
    requires forall i :: 0 <= i < |xs| ==> keep(xs[i])
    ensures Filter(keep, xs) == xs
  {
    if xs != [] {
      FilterKeepsAll(keep, xs[1..]);
    }
  }

  /** Two complementary filters split a sequence: together they keep as many
      elements as there are. */
  lemma {:induction false} FilterPartition<T(!new)>(keep: T -> bool, drop: T -> bool, xs: seq<T>)
    requires forall x :: drop(x) == !keep(x)
    ensures |Filter(keep, xs)| + |Filter(drop, xs)| == |xs|
  {
    if xs != [] {
      FilterPartition(keep, drop, xs[1..]);
    }
  }

  /** A `for` loop that updates a state and may raise: the state after the
      items `xs`, or the first exception. */
  function FoldResult<S, T>(step: (S, T) -> Result<S>, init: S, xs: seq<T>): Result<S>
  {
    if xs == [] then Ok(init)
    else
      match FoldResult(step, init, xs[..|xs| - 1])
      case Err(f) => Err(f)
      case Ok(s) => step(s, xs[|xs| - 1])
  }

  lemma FoldNext<S, T>(step: (S, T) -> Result<S>, init: S, xs: seq<T>, i: nat)
    requires i < |xs|
    ensures FoldResult(step, init, xs[..i + 1]) ==
      match FoldResult(step, init, xs[..i])
      case Err(f) => Err(f)
      case Ok(s) => step(s, xs[i])
  {
    assert xs[..i + 1][..i] == xs[..i];
  }

  /** Once the loop has raised, the items after do not matter. */
  lemma {:induction false} FoldErrSticks<S, T>(step: (S, T) -> Result<S>, init: S, xs: seq<T>, i: nat)
    requires i <= |xs| && FoldResult(step, init, xs[..i]).Err?
    ensures FoldResult(step, init, xs) == FoldResult(step, init, xs[..i])
    decreases |xs| - i
  {
    if i < |xs| {
      FoldNext(step, init, xs, i);
      FoldErrSticks(step, init, xs, i + 1);
    } else {
      assert xs[..i] == xs;
    }
  }

  // ---------------------------------------------------------------------
  // get_all_products
  // ---------------------------------------------------------------------

  datatype ProductCandidate = ProductCandidate(
    id: int,
    name: string,
    locationId: Option<int>,
    quIdStock: Option<int>,
    quIdPurchase: Option<int>,
    stockAmount: Option<real>)

  /** The product id an entry names, when `int()` accepts it. */
  function IdOf(c: Conversions, row: Json, key: string): Option<int>
  {
    if row.JObj? then PyInt(c, GetOr(row.fields, key, JNull)) else None
  }

  /** The amount of a stock entry: `float(entry.get("amount", 0.0))`. */
  function EntryAmount(c: Conversions, entry: Json): Option<real>
  {
    if entry.JObj? then PyFloat(c, GetOr(entry.fields, "amount", JReal(0.0))) else None
  }

  /** One pass of the stock loop: a non-object entry raises, an entry whose
      product id does not convert is skipped, an amount that does not convert
      raises, and otherwise the amount is stored under the id. */
  function IndexEntry(c: Conversions, index: map<int, real>, entry: Json): Result<map<int, real>>
  {
    if !entry.JObj? then Err(AttributeError)
    else match IdOf(c, entry, "product_id")
      case None => Ok(index)
      case Some(pid) =>
        match EntryAmount(c, entry)
        case None => Err(Raised("ValueError: could not convert amount"))
        case Some(amount) => Ok(index[pid := amount])
  }

  function IndexStep(c: Conversions): (map<int, real>, Json) -> Result<map<int, real>>
  {
    (index, entry) => IndexEntry(c, index, entry)
  }

  /** `stock_by_product`: filled from the stock list when it is a list, and
      left empty otherwise. */
  function StockIndex(c: Conversions, stock: Json): Result<map<int, real>>
  {
    if stock.JArr? then FoldResult(IndexStep(c), map[], stock.items) else Ok(map[])
  }

  /** Entry `i` of `es` is the last one that names `pid`. */
  predicate LastNaming(c: Conversions, es: seq<Json>, pid: int, i: int)
  {
    && 0 <= i < |es| && IdOf(c, es[i], "product_id") == Some(pid)
    && forall j :: i < j < |es| ==> IdOf(c, es[j], "product_id") != Some(pid)
  }

  /** The stock index holds a product exactly when some entry names it. */
  lemma {:induction false} StockIndexMembers(c: Conversions, es: seq<Json>, pid: int)
    requires FoldResult(IndexStep(c), map[], es).Ok?
    ensures pid in FoldResult(IndexStep(c), map[], es).value <==>
      exists i :: 0 <= i < |es| && IdOf(c, es[i], "product_id") == Some(pid)
  {
    if es != [] {
      var n := |es| - 1;
      var prefix := es[..n];
      StockIndexMembers(c, prefix, pid);
      var before := FoldResult(IndexStep(c), map[], prefix).value;
      assert IndexEntry(c, before, es[n]) == FoldResult(IndexStep(c), map[], es);
      IndexEntryEffect(c, before, es[n], pid);
      assert forall i :: 0 <= i < n ==> es[i] == prefix[i];
    }
  }

  /** The stock index holds, for a product, the amount of the last entry
      that names it. */
  lemma {:induction false} StockIndexKeepsLastEntry(c: Conversions, es: seq<Json>, pid: int, i: int)
    requires FoldResult(IndexStep(c), map[], es).Ok?
    requires LastNaming(c, es, pid, i)
    ensures var index := FoldResult(IndexStep(c), map[], es).value;
      pid in index && Some(index[pid]) == EntryAmount(c, es[i])
  {
    var n := |es| - 1;
    var prefix := es[..n];
    var before := FoldResult(IndexStep(c), map[], prefix).value;
    assert IndexEntry(c, before, es[n]) == FoldResult(IndexStep(c), map[], es);
    IndexEntryEffect(c, before, es[n], pid);
    if i < n {
      assert LastNaming(c, prefix, pid, i) by {
        assert forall j :: 0 <= j < n ==> es[j] == prefix[j];
      }
      StockIndexKeepsLastEntry(c, prefix, pid, i);
    }
  }

  /** With sound conversions, one stock entry with an int product id and a
      float amount indexes that amount under that id, and an entry without
      an amount indexes 0. */
  lemma StockIndexWhenSound(c: Conversions, pid: int, x: real)
    requires Sound(c)
    ensures StockIndex(c, JArr([JObj(map["product_id" := JInt(pid), "amount" := JReal(x)])])) == Ok(map[pid := x])
    ensures StockIndex(c, JArr([JObj(map["product_id" := JInt(pid)])])) == Ok(map[pid := 0.0])
  {
    var fullEntry := JObj(map["product_id" := JInt(pid), "amount" := JReal(x)]);
    var bareEntry := JObj(map["product_id" := JInt(pid)]);
    assert [fullEntry][..0] == [] && [bareEntry][..0] == [];
    assert "amount" !in bareEntry.fields;
    assert IdOf(c, fullEntry, "product_id") == Some(pid) && EntryAmount(c, fullEntry) == Some(x);
    assert IdOf(c, bareEntry, "product_id") == Some(pid) && EntryAmount(c, bareEntry) == Some(0.0);
    assert FoldResult(IndexStep(c), map[], [fullEntry]) == IndexEntry(c, map[], fullEntry);
    assert FoldResult(IndexStep(c), map[], [bareEntry]) == IndexEntry(c, map[], bareEntry);
  }

  /** One stock entry stores its amount under the id it names and leaves
      every other id as it was. */
  lemma IndexEntryEffect(c: Conversions, before: map<int, real>, entry: Json, pid: int)
    requires IndexEntry(c, before, entry).Ok?
    ensures var index := IndexEntry(c, before, entry).value;
      && (IdOf(c, entry, "product_id") == Some(pid) ==> pid in index && Some(index[pid]) == EntryAmount(c, entry))
      && (IdOf(c, entry, "product_id") != Some(pid) ==>
            (pid in index <==> pid in before) && (pid in before ==> index[pid] == before[pid]))
  {
  }

  /** A product row whose `id` converts with `int()`. */
  predicate HasId(c: Conversions, p: Json)
  {
    IdOf(c, p, "id").Some?
  }

  /** The validation of an `Optional[int]` field: null gives `None`, and any
      other value must pass the field validator; `None` here is a failure. */
  function OptionalInt(c: Conversions, v: Json): Option<Option<int>>
  {
    if v.JNull? then Some(None)
    else match c.validateInt(v)
      case None => None
      case Some(i) => Some(Some(i))
  }

  /** An optional id field of a product row, as the candidate validates it;
      a missing key is null. */
  function IdField(c: Conversions, p: Json, key: string): Option<Option<int>>
  {
    if p.JObj? then OptionalInt(c, GetOr(p.fields, key, JNull)) else None
  }

  /** A row whose fields pass the candidate's validation: a string name (a
      missing one is "") and three optional int ids. */
  predicate ValidCandidate(c: Conversions, p: Json)
  {
    && p.JObj?
    && GetOr(p.fields, "name", JStr("")).JStr?
    && IdField(c, p, "location_id").Some?
    && IdField(c, p, "qu_id_stock").Some?
    && IdField(c, p, "qu_id_purchase").Some?
  }

  /** The candidate built from a valid row with an id. */
  function Candidate(c: Conversions, index: map<int, real>, p: Json): ProductCandidate
  {
    if !HasId(c, p) || !ValidCandidate(c, p) then ProductCandidate(0, "", None, None, None, None)
    else
      var pid := IdOf(c, p, "id").value;
      ProductCandidate(pid, GetOr(p.fields, "name", JStr("")).s,
        IdField(c, p, "location_id").value, IdField(c, p, "qu_id_stock").value,
        IdField(c, p, "qu_id_purchase").value,
        if pid in index then Some(index[pid]) else None)
  }

  /** One pass of the product loop: a non-object row raises, a row whose id
      does not convert is skipped, a row that fails the candidate's
      validation raises, and otherwise the candidate is appended. */
  function AddCandidate(c: Conversions, index: map<int, real>, out: seq<ProductCandidate>, p: Json): Result<seq<ProductCandidate>>
  {
    if !p.JObj? then Err(AttributeError)
    else if !HasId(c, p) then Ok(out)
    else if !ValidCandidate(c, p) then Err(ValidationError)
    else Ok(out + [Candidate(c, index, p)])
  }

  function CandidateStep(c: Conversions, index: map<int, real>): (seq<ProductCandidate>, Json) -> Result<seq<ProductCandidate>>
  {
    (out, p) => AddCandidate(c, index, out, p)
  }

  /** `get_all_products` after its two requests. */
  function AllProducts(c: Conversions, products: Json, stock: Json): Result<seq<ProductCandidate>>
  {
    match StockIndex(c, stock)
    case Err(f) => Err(f)
    case Ok(index) =>
      match Iterate(products)
      case Err(f) => Err(f)
      case Ok(rows) => FoldResult(CandidateStep(c, index), [], rows)
  }

  /** Validation failures are not skipped: when the product loop finishes,
      every row with an id passed the candidate's validation. */
  lemma {:induction false} CandidateRowsValid(c: Conversions, index: map<int, real>, ps: seq<Json>)
    requires FoldResult(CandidateStep(c, index), [], ps).Ok?
    ensures forall i :: 0 <= i < |ps| && HasId(c, ps[i]) ==> ValidCandidate(c, ps[i])
  {
    if ps != [] {
      var n := |ps| - 1;
      CandidateRowsValid(c, index, ps[..n]);
      assert forall i :: 0 <= i < n ==> ps[i] == ps[..n][i];
    }
  }

  /** An empty object or string in place of the product list gives no
      candidates, a non-empty one raises, and a value that is not a
      container is not iterable. */
  lemma NonListProducts(c: Conversions, products: Json, stock: Json)
    requires StockIndex(c, stock).Ok? && !products.JArr?
    ensures AllProducts(c, products, stock).Ok? <==>
      (products.JObj? && products.fields == map[]) || (products.JStr? && products.s == "")
    ensures AllProducts(c, products, stock).Ok? ==> AllProducts(c, products, stock).value == []
    ensures !products.JObj? && !products.JStr? ==> AllProducts(c, products, stock) == Err(NotIterable)
  {
  }

  /** The candidates are the rows with a convertible id, in the order of the
      product list, each built with its stock from the index. */
  lemma {:induction false} CandidatesFollowProducts(c: Conversions, index: map<int, real>, ps: seq<Json>)
    requires FoldResult(CandidateStep(c, index), [], ps).Ok?
    ensures var keep := (p: Json) => HasId(c, p);
      var kept := Filter(keep, ps);
      FoldResult(CandidateStep(c, index), [], ps).value ==
        seq(|kept|, k requires 0 <= k < |kept| => Candidate(c, index, kept[k]))
  {
    var keep := (p: Json) => HasId(c, p);
    if ps != [] {
      var n := |ps| - 1;
      assert ps[..n] + [ps[n]] == ps;
      CandidatesFollowProducts(c, index, ps[..n]);
      FilterAppend(keep, ps[..n], [ps[n]]);
    }
  }

  /** What `get_all_products` promises: candidates in the order of the
      products, one per row whose id converts, and the stock amount of each
      is that of the last stock entry for its id, or none when no entry names
      it or the stock response is not a list. */
  lemma AllProductsStock(c: Conversions, products: Json, stock: Json, k: nat)
    requires AllProducts(c, products, stock).Ok?
    requires k < |AllProducts(c, products, stock).value|
    ensures products.JArr?
    ensures AllProducts(c, products, stock).value ==
      Candidates(c, StockIndex(c, stock).value, Filter((p: Json) => HasId(c, p), products.items))
    ensures ValidCandidate(c, Filter((p: Json) => HasId(c, p), products.items)[k])
    ensures var out := AllProducts(c, products, stock).value;
      && (!stock.JArr? ==> out[k].stockAmount.None?)
      && (stock.JArr? ==>
            (out[k].stockAmount.Some? <==>
               exists i :: 0 <= i < |stock.items| && IdOf(c, stock.items[i], "product_id") == Some(out[k].id)))
      && (forall i :: stock.JArr? && LastNaming(c, stock.items, out[k].id, i) ==>
            out[k].stockAmount == EntryAmount(c, stock.items[i]))
  {
    var index := StockIndex(c, stock).value;
    CandidatesFollowProducts(c, index, products.items);
    CandidateRowsValid(c, index, products.items);
    var kept := Filter((p: Json) => HasId(c, p), products.items);
    var out := AllProducts(c, products, stock).value;
    assert out[k] == Candidate(c, index, kept[k]);
    FilterMembers((p: Json) => HasId(c, p), products.items);
    assert kept[k] in kept;
    assert HasId(c, kept[k]);
    assert kept[k] in products.items;
    var pid := IdOf(c, kept[k], "id").value;
    assert out[k].id == pid;
    assert out[k].stockAmount == if pid in index then Some(index[pid]) else None;
    if stock.JArr? {
      StockIndexMembers(c, stock.items, pid);
      forall i | LastNaming(c, stock.items, pid, i)
        ensures pid in index && Some(index[pid]) == EntryAmount(c, stock.items[i])
      {
        StockIndexKeepsLastEntry(c, stock.items, pid, i);
      }
    }
  }

  /** The candidates built from a list of rows. */
  function Candidates(c: Conversions, index: map<int, real>, rows: seq<Json>): seq<ProductCandidate>
  {
    seq(|rows|, k requires 0 <= k < |rows| => Candidate(c, index, rows[k]))
  }

  /** The stock loop of `get_all_products` (src/repository.py:116-124). */
  method IndexStock(c: Conversions, stock: Json) returns (r: Result<map<int, real>>)
    ensures r == StockIndex(c, stock)
  {
    var stockByProduct: map<int, real> := map[];
    if stock.JArr? {
      var entries := stock.items;
      var i := 0;
      while i < |entries|
        invariant 0 <= i <= |entries|
        invariant FoldResult(IndexStep(c), map[], entries[..i]) == Ok(stockByProduct)
      {
        var entry := entries[i];
        FoldNext(IndexStep(c), map[], entries, i);
        if !entry.JObj? {
          FoldErrSticks(IndexStep(c), map[], entries, i + 1);
          return Err(AttributeError);
        }
        var pid := PyInt(c, GetOr(entry.fields, "product_id", JNull));
        if pid.Some? {
          var amount := PyFloat(c, GetOr(entry.fields, "amount", JReal(0.0)));
          if amount.None? {
            FoldErrSticks(IndexStep(c), map[], entries, i + 1);
            return Err(Raised("ValueError: could not convert amount"));
          }
          stockByProduct := stockByProduct[pid.value := amount.value];
        }
        i := i + 1;
      }
      assert entries[..i] == entries;
    }
    r := Ok(stockByProduct);
  }

  /** `get_all_products` after its two requests: the stock loop, then the
      product loop (src/repository.py:116-143). */
  method MergeProducts(c: Conversions, products: Json, stock: Json) returns (r: Result<seq<ProductCandidate>>)
    ensures r == AllProducts(c, products, stock)
  {
    var indexed := IndexStock(c, stock);
    if indexed.Err? {
      return Err(indexed.failure);
    }
    var rows := Iterate(products);
    if rows.Err? {
      return Err(rows.failure);
    }
    r := CollectCandidates(c, indexed.value, rows.value);
  }

  /** The product loop of `get_all_products` (src/repository.py:126-143). */
  method CollectCandidates(c: Conversions, stockByProduct: map<int, real>, rows: seq<Json>) returns (r: Result<seq<ProductCandidate>>)
    ensures r == FoldResult(CandidateStep(c, stockByProduct), [], rows)
  {
    var result: seq<ProductCandidate> := [];
    var i := 0;
    while i < |rows|
      invariant 0 <= i <= |rows|
      invariant FoldResult(CandidateStep(c, stockByProduct), [], rows[..i]) == Ok(result)
    {
      var p := rows[i];
      FoldNext(CandidateStep(c, stockByProduct), [], rows, i);
      if !p.JObj? {
        FoldErrSticks(CandidateStep(c, stockByProduct), [], rows, i + 1);
        return Err(AttributeError);
      }
      var pid := PyInt(c, GetOr(p.fields, "id", JNull));
      if pid.Some? {
        var name := GetOr(p.fields, "name", JStr(""));
        var locationId := OptionalInt(c, GetOr(p.fields, "location_id", JNull));
        var quIdStock := OptionalInt(c, GetOr(p.fields, "qu_id_stock", JNull));
        var quIdPurchase := OptionalInt(c, GetOr(p.fields, "qu_id_purchase", JNull));
        if !name.JStr? || locationId.None? || quIdStock.None? || quIdPurchase.None? {
          FoldErrSticks(CandidateStep(c, stockByProduct), [], rows, i + 1);
          return Err(ValidationError);
        }
        var amount := if pid.value in stockByProduct then Some(stockByProduct[pid.value]) else None;
        result := result + [ProductCandidate(pid.value, name.s, locationId.value, quIdStock.value,
                                             quIdPurchase.value, amount)];
      }
      i := i + 1;
    }
    assert rows[..i] == rows;
    r := Ok(result);
  }

  const ProductsCall := ApiCall(GET, "objects/products", None, None)
  const StockCall := ApiCall(GET, "stock", None, None)

  /** `get_all_products`: the product request, then the stock request; an
      exception from either propagates. */
  method GetAllProducts(c: Conversions, backend: Backend) returns (r: Result<seq<ProductCandidate>>, calls: seq<ApiCall>)
    ensures calls == if backend(0, ProductsCall).Err? then [ProductsCall] else [ProductsCall, StockCall]
    ensures backend(0, ProductsCall).Err? ==> r == Err(backend(0, ProductsCall).failure)
    ensures backend(0, ProductsCall).Ok? && backend(1, StockCall).Err? ==> r == Err(backend(1, StockCall).failure)
    ensures backend(0, ProductsCall).Ok? && backend(1, StockCall).Ok? ==>
      r == AllProducts(c, backend(0, ProductsCall).value, backend(1, StockCall).value)
  {
    calls := [ProductsCall];
    var products := backend(0, ProductsCall);
    if products.Err? {
      return Err(products.failure), calls;
    }
    calls := calls + [StockCall];
    var stock := backend(1, StockCall);
    if stock.Err? {
      return Err(stock.failure), calls;
    }
    r := MergeProducts(c, products.value, stock.value);
  }

  // ---------------------------------------------------------------------
  // search_products and get_shopping_list_items
  // ---------------------------------------------------------------------

  /** `query_lower in p.name.lower()`. */
  predicate NameMatches(query: string, p: ProductCandidate)
  {
    Contains(Lower(p.name), Lower(query))
  }

  /** The comprehension of `search_products`. */
  function MatchingProducts(query: string, products: seq<ProductCandidate>): seq<ProductCandidate>
  {
    Filter((p: ProductCandidate) => NameMatches(query, p), products)
  }

  /** The search keeps exactly the products whose lower-cased name contains
      the lower-cased query, in their order. */
  lemma SearchKeepsMatches(query: string, xs: seq<ProductCandidate>, ys: seq<ProductCandidate>)
    ensures forall p :: p in MatchingProducts(query, xs) <==> p in xs && NameMatches(query, p)
    ensures MatchingProducts(query, xs + ys) == MatchingProducts(query, xs) + MatchingProducts(query, ys)
  {
    FilterMembers((p: ProductCandidate) => NameMatches(query, p), xs);
    FilterAppend((p: ProductCandidate) => NameMatches(query, p), xs, ys);
  }

  /** An empty query keeps every product. */
  lemma EmptyQueryKeepsAll(products: seq<ProductCandidate>)
    ensures MatchingProducts("", products) == products
  {
    forall i | 0 <= i < |products| ensures NameMatches("", products[i]) {
      assert OccursAt(Lower(products[i].name), 0, "");
    }
    FilterKeepsAll((p: ProductCandidate) => NameMatches("", p), products);
  }

  /** Two filters whose tests agree keep the same elements. */
  lemma {:induction false} FilterSameTest<T(!new)>(keep: T -> bool, other: T -> bool, xs: seq<T>)
    requires forall x :: keep(x) == other(x)
    ensures Filter(keep, xs) == Filter(other, xs)
  {
    if xs != [] {
      FilterSameTest(keep, other, xs[1..]);
    }
  }

  /** Lower-casing twice is lower-casing once. */
  lemma LowerTwice(s: string)
    ensures Lower(Lower(s)) == Lower(s)
  {
  }

  /** The search ignores the case of the query: a query and its lower-cased
      form find the same products. */
  lemma SearchIgnoresQueryCase(query: string, products: seq<ProductCandidate>)
    ensures MatchingProducts(Lower(query), products) == MatchingProducts(query, products)
  {
    LowerTwice(query);
    FilterSameTest((p: ProductCandidate) => NameMatches(Lower(query), p),
                   (p: ProductCandidate) => NameMatches(query, p), products);
  }

  /** `search_products`: all products, then the name filter. */
  method SearchProducts(c: Conversions, query: string, backend: Backend) returns (r: Result<seq<ProductCandidate>>, calls: seq<ApiCall>)
    ensures calls == if backend(0, ProductsCall).Err? then [ProductsCall] else [ProductsCall, StockCall]
    ensures backend(0, ProductsCall).Err? ==> r == Err(backend(0, ProductsCall).failure)
    ensures backend(0, ProductsCall).Ok? && backend(1, StockCall).Err? ==> r == Err(backend(1, StockCall).failure)
    ensures backend(0, ProductsCall).Ok? && backend(1, StockCall).Ok? ==>
      match AllProducts(c, backend(0, ProductsCall).value, backend(1, StockCall).value)
      case Err(f) => r == Err(f)
      case Ok(all) => r == Ok(MatchingProducts(query, all))
    ensures r.Ok? ==> forall p :: p in r.value ==> NameMatches(query, p)
  {
    var products;
    products, calls := GetAllProducts(c, backend);
    if products.Err? {
      return Err(products.failure), calls;
    }
    SearchKeepsMatches(query, products.value, []);
    r := Ok(MatchingProducts(query, products.value));
  }

  /** Python's `v == list_id` for a JSON value and an int. */
  predicate EqualsInt(v: Json, n: int)
  {
    match v
    case JInt(i) => i == n
    case JReal(x) => x == n as real
    case JBool(b) => (if b then 1 else 0) == n
    case _ => false
  }

  /** `row.get("shopping_list_id") == list_id`. */
  predicate OnList(row: Json, listId: int)
  {
    row.JObj? && EqualsInt(GetOr(row.fields, "shopping_list_id", JNull), listId)
  }

  /** The comprehension of `get_shopping_list_items`. */
  function ListRows(listId: int, rows: seq<Json>): seq<Json>
  {
    Filter((row: Json) => OnList(row, listId), rows)
  }

  /** The rows of a list keep their order and their repetitions: the rows
      of a concatenation are the rows of each part, and one row is kept
      exactly when it is on the list. */
  lemma ListRowsKeepOrder(listId: int, xs: seq<Json>, ys: seq<Json>, row: Json)
    ensures ListRows(listId, xs + ys) == ListRows(listId, xs) + ListRows(listId, ys)
    ensures ListRows(listId, [row]) == if OnList(row, listId) then [row] else []
  {
    FilterAppend((row: Json) => OnList(row, listId), xs, ys);
  }

  /** `get_shopping_list_items` after its request: the response must be a
      list of objects; the rows of the list are kept, in order. */
  function ShoppingListItems(result: Json, listId: int): (r: Result<seq<Json>>)
    ensures r.Ok? <==> result.JArr? && forall i :: 0 <= i < |result.items| ==> result.items[i].JObj?
    ensures r.Ok? ==> forall row :: row in r.value <==> row in result.items && OnList(row, listId)
    ensures r.Ok? ==> r.value == ListRows(listId, result.items)
  {
    if !result.JArr? then Err(AssertionError)
    else if exists i :: 0 <= i < |result.items| && !result.items[i].JObj? then Err(AttributeError)
    else
      FilterMembers((row: Json) => OnList(row, listId), result.items);
      Ok(ListRows(listId, result.items))
  }

  const ShoppingListCall := ApiCall(GET, "objects/shopping_list", None, None)

  /** `get_shopping_list_items`: one request for every shopping-list row,
      then the rows of the list. */
  method GetShoppingListItems(backend: Backend, listId: int) returns (r: Result<seq<Json>>, calls: seq<ApiCall>)
    ensures calls == [ShoppingListCall]
    ensures backend(0, ShoppingListCall).Err? ==> r == Err(backend(0, ShoppingListCall).failure)
    ensures backend(0, ShoppingListCall).Ok? ==> r == ShoppingListItems(backend(0, ShoppingListCall).value, listId)
  {
    calls := [ShoppingListCall];
    var result := backend(0, ShoppingListCall);
    if result.Err? {
      return Err(result.failure), calls;
    }
    r := ShoppingListItems(result.value, listId);
  }

  // ---------------------------------------------------------------------
  // get_locations
  // ---------------------------------------------------------------------

  datatype Location = Location(id: int, name: string)

  /** A location row with a non-null id that converts and a non-null name. */
  predicate UsableLocation(c: Conversions, loc: Json)
  {
    && loc.JObj?
    && !GetOr(loc.fields, "name", JNull).JNull?
    && IdOf(c, loc, "id").Some?
  }

  function LocationOf(c: Conversions, loc: Json): Location
  {
    if UsableLocation(c, loc) then Location(IdOf(c, loc, "id").value, c.toStr(loc.fields["name"])) else Location(0, "")
  }

  /** One pass of the location loop. */
  function AddLocation(c: Conversions, out: seq<Location>, loc: Json): Result<seq<Location>>
  {
    if !loc.JObj? then Err(AttributeError)
    else if UsableLocation(c, loc) then Ok(out + [LocationOf(c, loc)])
    else Ok(out)
  }

  function LocationStep(c: Conversions): (seq<Location>, Json) -> Result<seq<Location>>
  {
    (out, loc) => AddLocation(c, out, loc)
  }

  /** `get_locations` after its request. */
  function Locations(c: Conversions, locations: Json): Result<seq<Location>>
  {
    match Iterate(locations)
    case Err(f) => Err(f)
    case Ok(rows) => FoldResult(LocationStep(c), [], rows)
  }

  /** An empty object or string in place of the location list gives no
      locations, a non-empty one raises, and a value that is not a container
      is not iterable. */
  lemma NonListLocations(c: Conversions, locations: Json)
    requires !locations.JArr?
    ensures Locations(c, locations).Ok? <==>
      (locations.JObj? && locations.fields == map[]) || (locations.JStr? && locations.s == "")
    ensures Locations(c, locations).Ok? ==> Locations(c, locations).value == []
    ensures !locations.JObj? && !locations.JStr? ==> Locations(c, locations) == Err(NotIterable)
  {
  }

  /** The locations are the usable rows, in order. */
  lemma {:induction false} LocationsFollowRows(c: Conversions, rows: seq<Json>)
    requires FoldResult(LocationStep(c), [], rows).Ok?
    ensures var kept := Filter((l: Json) => UsableLocation(c, l), rows);
      FoldResult(LocationStep(c), [], rows).value == seq(|kept|, k requires 0 <= k < |kept| => LocationOf(c, kept[k]))
  {
    if rows != [] {
      var n := |rows| - 1;
      assert rows[..n] + [rows[n]] == rows;
      LocationsFollowRows(c, rows[..n]);
      FilterAppend((l: Json) => UsableLocation(c, l), rows[..n], [rows[n]]);
    }
  }

  /** The loop of `get_locations` (src/repository.py:168-178). */
  method CollectLocations(c: Conversions, locations: Json) returns (r: Result<seq<Location>>)
    ensures r == Locations(c, locations)
  {
    var iterated := Iterate(locations);
    if iterated.Err? {
      return Err(iterated.failure);
    }
    var rows := iterated.value;
    var result: seq<Location> := [];
    var i := 0;
    while i < |rows|
      invariant 0 <= i <= |rows|
      invariant FoldResult(LocationStep(c), [], rows[..i]) == Ok(result)
    {
      var loc := rows[i];
      FoldNext(LocationStep(c), [], rows, i);
      if !loc.JObj? {
        FoldErrSticks(LocationStep(c), [], rows, i + 1);
        return Err(AttributeError);
      }
      var lid := GetOr(loc.fields, "id", JNull);
      var name := GetOr(loc.fields, "name", JNull);
      if lid.JNull? || name.JNull? {
        i := i + 1;
        continue;
      }
      var id := PyInt(c, lid);
      if id.None? {
        i := i + 1;
        continue;
      }
      result := result + [Location(id.value, c.toStr(name))];
      i := i + 1;
    }
    assert rows[..i] == rows;
    r := Ok(result);
  }

  const LocationsCall := ApiCall(GET, "objects/locations", None, None)

  /** `get_locations`: one request, then the loop; the locations are the
      usable rows, in order. */
  method GetLocations(c: Conversions, backend: Backend) returns (r: Result<seq<Location>>, calls: seq<ApiCall>)
    ensures calls == [LocationsCall]
    ensures backend(0, LocationsCall).Err? ==> r == Err(backend(0, LocationsCall).failure)
    ensures backend(0, LocationsCall).Ok? ==> r == Locations(c, backend(0, LocationsCall).value)
    ensures r.Ok? ==> backend(0, LocationsCall).Ok? && Iterate(backend(0, LocationsCall).value).Ok?
    ensures r.Ok? ==>
      var kept := Filter((l: Json) => UsableLocation(c, l), Iterate(backend(0, LocationsCall).value).value);
      r.value == seq(|kept|, k requires 0 <= k < |kept| => LocationOf(c, kept[k]))
  {
    calls := [LocationsCall];
    var locations := backend(0, LocationsCall);
    if locations.Err? {
      return Err(locations.failure), calls;
    }
    r := CollectLocations(c, locations.value);
    if r.Ok? {
      LocationsFollowRows(c, Iterate(locations.value).value);
    }
  }

  // ---------------------------------------------------------------------
  // Request payloads
  // ---------------------------------------------------------------------

  datatype StockItemInput = StockItemInput(
    productId: int, amount: real, bestBeforeDate: Option<string>,
    price: Option<real>, locationId: Option<int>, idempotencyKey: Option<string>)

  datatype ConsumeItemInput = ConsumeItemInput(
    productId: int, amount: real, spoiled: bool, locationId: Option<int>, idempotencyKey: Option<string>)

  datatype InventoryItemInput = InventoryItemInput(
    productId: int, newAmount: real, bestBeforeDate: Option<string>, locationId: Option<int>,
    price: Option<real>, note: Option<string>, idempotencyKey: Option<string>)

  type Payload = map<string, Json>

  /** `key` is present, with `value`, exactly when `present`. */
  predicate OptionalKey(d: Payload, key: string, present: bool, value: Json)
  {
    (key in d <==> present) && (present ==> d[key] == value)
  }

  /** An optional argument as JSON: `None` becomes null. */
  function StrOrNull(o: Option<string>): Json
  {
    if o.Some? then JStr(o.value) else JNull
  }

  function IntOrNull(o: Option<int>): Json
  {
    if o.Some? then JInt(o.value) else JNull
  }

  function RealOrNull(o: Option<real>): Json
  {
    if o.Some? then JReal(o.value) else JNull
  }

  /** A purchase booking: `amount` and `transaction_type` always, the best
      before date only when truthy, price and location whenever not None. */
  predicate PurchasePayload(d: Payload, amount: real, bestBeforeDate: Option<string>, price: Option<real>, locationId: Option<int>)
  {
    && d.Keys <= {"amount", "transaction_type", "best_before_date", "price", "location_id"}
    && "amount" in d && d["amount"] == JReal(amount)
    && "transaction_type" in d && d["transaction_type"] == JStr("purchase")
    && OptionalKey(d, "best_before_date", Truthy(bestBeforeDate), StrOrNull(bestBeforeDate))
    && OptionalKey(d, "price", price.Some?, RealOrNull(price))
    && OptionalKey(d, "location_id", locationId.Some?, IntOrNull(locationId))
  }

  /** A consume booking: `amount`, `transaction_type` and `spoiled` always,
      the location whenever not None. */
  predicate ConsumePayload(d: Payload, amount: real, spoiled: bool, locationId: Option<int>)
  {
    && d.Keys <= {"amount", "transaction_type", "spoiled", "location_id"}
    && "amount" in d && d["amount"] == JReal(amount)
    && "transaction_type" in d && d["transaction_type"] == JStr("consume")
    && "spoiled" in d && d["spoiled"] == JBool(spoiled)
    && OptionalKey(d, "location_id", locationId.Some?, IntOrNull(locationId))
  }

  /** A POST that books a purchase at `endpoint`. */
  predicate BooksPurchase(call: ApiCall, endpoint: string, amount: real, bestBeforeDate: Option<string>, price: Option<real>, locationId: Option<int>)
  {
    && call.verb == POST && call.endpoint == endpoint && call.params.None?
    && call.data.Some? && PurchasePayload(call.data.value, amount, bestBeforeDate, price, locationId)
  }

  /** A POST that books a consumption at `endpoint`. */
  predicate BooksConsumption(call: ApiCall, endpoint: string, amount: real, spoiled: bool, locationId: Option<int>)
  {
    && call.verb == POST && call.endpoint == endpoint && call.params.None?
    && call.data.Some? && ConsumePayload(call.data.value, amount, spoiled, locationId)
  }

  function ProductPath(productId: int, action: string): string
  {
    "stock/products/" + IntToString(productId) + "/" + action
  }

  /** `add_stock_entry`: the idempotency key is not sent. */
  method AddStockEntry(item: StockItemInput) returns (call: ApiCall)
    ensures BooksPurchase(call, ProductPath(item.productId, "add"), item.amount, item.bestBeforeDate, item.price, item.locationId)
  {
    var data: Payload := map["amount" := JReal(item.amount), "transaction_type" := JStr("purchase")];
    if Truthy(item.bestBeforeDate) {
      data := data["best_before_date" := JStr(item.bestBeforeDate.value)];
    }
    if item.price.Some? {
      data := data["price" := JReal(item.price.value)];
    }
    if item.locationId.Some? {
      data := data["location_id" := JInt(item.locationId.value)];
    }
    call := ApiCall(POST, ProductPath(item.productId, "add"), None, Some(data));
  }

  /** `consume_stock_entry`. */
  method ConsumeStockEntry(item: ConsumeItemInput) returns (call: ApiCall)
    ensures BooksConsumption(call, ProductPath(item.productId, "consume"), item.amount, item.spoiled, item.locationId)
  {
    var data: Payload := map["amount" := JReal(item.amount), "transaction_type" := JStr("consume"), "spoiled" := JBool(item.spoiled)];
    if item.locationId.Some? {
      data := data["location_id" := JInt(item.locationId.value)];
    }
    call := ApiCall(POST, ProductPath(item.productId, "consume"), None, Some(data));
  }

  /** `inventory_product`: the new amount always; date and note only when
      truthy; location and price whenever not None. */
  method InventoryProduct(item: InventoryItemInput) returns (call: ApiCall)
    ensures call.verb == POST && call.endpoint == ProductPath(item.productId, "inventory") && call.params.None?
    ensures call.data.Some?
    ensures var d := call.data.value;
      && d.Keys <= {"new_amount", "best_before_date", "location_id", "price", "note"}
      && "new_amount" in d && d["new_amount"] == JReal(item.newAmount)
      && OptionalKey(d, "best_before_date", Truthy(item.bestBeforeDate), StrOrNull(item.bestBeforeDate))
      && OptionalKey(d, "location_id", item.locationId.Some?, IntOrNull(item.locationId))
      && OptionalKey(d, "price", item.price.Some?, RealOrNull(item.price))
      && OptionalKey(d, "note", Truthy(item.note), StrOrNull(item.note))
  {
    var data: Payload := map["new_amount" := JReal(item.newAmount)];
    if Truthy(item.bestBeforeDate) {
      data := data["best_before_date" := JStr(item.bestBeforeDate.value)];
    }
    if item.locationId.Some? {
      data := data["location_id" := JInt(item.locationId.value)];
    }
    if item.price.Some? {
      data := data["price" := JReal(item.price.value)];
    }
    if Truthy(item.note) {
      data := data["note" := JStr(item.note.value)];
    }
    call := ApiCall(POST, ProductPath(item.productId, "inventory"), None, Some(data));
  }

  /** A POST that puts `amount` of a product on a shopping list, with the
      note only when it is truthy. */
  predicate AddsToShoppingList(call: ApiCall, listId: int, productId: int, amount: real, note: Option<string>)
  {
    && call.verb == POST && call.endpoint == "objects/shopping_list" && call.params.None? && call.data.Some?
    && var d := call.data.value;
      && d.Keys <= {"product_id", "amount", "shopping_list_id", "note"}
      && "product_id" in d && d["product_id"] == JInt(productId)
      && "amount" in d && d["amount"] == JReal(amount)
      && "shopping_list_id" in d && d["shopping_list_id"] == JInt(listId)
      && OptionalKey(d, "note", Truthy(note), StrOrNull(note))
  }

  /** `add_shopping_list_item`. */
  method AddShoppingListItem(listId: int, productId: int, amount: real, note: Option<string>) returns (call: ApiCall)
    ensures AddsToShoppingList(call, listId, productId, amount, note)
  {
    var payload: Payload := map["product_id" := JInt(productId), "amount" := JReal(amount), "shopping_list_id" := JInt(listId)];
    if Truthy(note) {
      payload := payload["note" := JStr(note.value)];
    }
    call := ApiCall(POST, "objects/shopping_list", None, Some(payload));
  }

  /** `add_stock_by_barcode`: the same purchase booking, addressed by barcode. */
  method AddStockByBarcode(barcode: string, amount: real, bestBeforeDate: Option<string>, price: Option<real>, locationId: Option<int>)
    returns (call: ApiCall)
    ensures BooksPurchase(call, "stock/products/by-barcode/" + barcode + "/add", amount, bestBeforeDate, price, locationId)
  {
    var data: Payload := map["amount" := JReal(amount), "transaction_type" := JStr("purchase")];
    if Truthy(bestBeforeDate) {
      data := data["best_before_date" := JStr(bestBeforeDate.value)];
    }
    if price.Some? {
      data := data["price" := JReal(price.value)];
    }
    if locationId.Some? {
      data := data["location_id" := JInt(locationId.value)];
    }
    call := ApiCall(POST, "stock/products/by-barcode/" + barcode + "/add", None, Some(data));
  }

  /** `consume_stock_by_barcode`: the same consume booking, addressed by barcode. */
  method ConsumeStockByBarcode(barcode: string, amount: real, spoiled: bool, locationId: Option<int>) returns (call: ApiCall)
    ensures BooksConsumption(call, "stock/products/by-barcode/" + barcode + "/consume", amount, spoiled, locationId)
  {
    var data: Payload := map["amount" := JReal(amount), "transaction_type" := JStr("consume"), "spoiled" := JBool(spoiled)];
    if locationId.Some? {
      data := data["location_id" := JInt(locationId.value)];
    }
    call := ApiCall(POST, "stock/products/by-barcode/" + barcode + "/consume", None, Some(data));
  }

  /** `link_barcode_to_product`: the note only when truthy. */
  method LinkBarcodeToProduct(productId: int, barcode: string, note: Option<string>) returns (call: ApiCall)
    ensures call.verb == POST && call.endpoint == "objects/product_barcodes" && call.params.None?
    ensures call.data.Some?
    ensures var d := call.data.value;
      && d.Keys <= {"product_id", "barcode", "note"}
      && "product_id" in d && d["product_id"] == JInt(productId)
      && "barcode" in d && d["barcode"] == JStr(barcode)
      && OptionalKey(d, "note", Truthy(note), StrOrNull(note))
  {
    var payload: Payload := map["product_id" := JInt(productId), "barcode" := JStr(barcode)];
    if Truthy(note) {
      payload := payload["note" := JStr(note.value)];
    }
    call := ApiCall(POST, "objects/product_barcodes", None, Some(payload));
  }

  // ---------------------------------------------------------------------
  // Other calls used by the tools, and what is done with their replies
  // ---------------------------------------------------------------------

  function ProductStockDetailsCall(productId: int): ApiCall
  {
    ApiCall(GET, "stock/products/" + IntToString(productId), None, None)
  }

  function CreateProductCall(data: Payload): ApiCall
  {
    ApiCall(POST, "objects/products", None, Some(data))
  }

  function UpdateProductCall(productId: int, data: Payload): ApiCall
  {
    ApiCall(PUT, "objects/products/" + IntToString(productId), None, Some(data))
  }

  function InspectEntityCall(entity: string, limit: int, offset: int): ApiCall
  {
    ApiCall(GET, "objects/" + entity, Some(map["limit" := JInt(limit), "offset" := JInt(offset)]), None)
  }

  /** The things the delete helpers remove, with their collections. */
  datatype Deletable = ProductRow | LocationRow | QuantityUnitRow | ProductGroupRow | ShoppingListRow | ShoppingListItemRow

  function Collection(kind: Deletable): string
  {
    match kind
    case ProductRow => "products"
    case LocationRow => "locations"
    case QuantityUnitRow => "quantity_units"
    case ProductGroupRow => "product_groups"
    case ShoppingListRow => "shopping_lists"
    case ShoppingListItemRow => "shopping_list"
  }

  function DeleteCall(kind: Deletable, id: int): ApiCall
  {
    ApiCall(DELETE, "objects/" + Collection(kind) + "/" + IntToString(id), None, None)
  }

  /** `assert isinstance(result, dict)`. */
  function ExpectObject(reply: Reply): (r: Reply)
    ensures r.Ok? <==> reply.Ok? && reply.value.JObj?
    ensures r.Ok? ==> r == reply
    ensures reply.Err? ==> r == reply
  {
    if reply.Ok? && !reply.value.JObj? then Err(AssertionError) else reply
  }

  /** `assert isinstance(result, list)`. */
  function ExpectList(reply: Reply): (r: Reply)
    ensures r.Ok? <==> reply.Ok? && reply.value.JArr?
    ensures r.Ok? ==> r == reply
    ensures reply.Err? ==> r == reply
  {
    if reply.Ok? && !reply.value.JArr? then Err(AssertionError) else reply
  }

  /** The delete and remove helpers: the reply must be an object or null,
      and `result or {}` turns null (and an empty object) into an empty
      object, so a helper that returns always returns an object. */
  function ObjectOrEmpty(reply: Reply): (r: Reply)
    ensures r.Ok? <==> reply.Ok? && (reply.value.JObj? || reply.value.JNull?)
    ensures r.Ok? ==> r.value.JObj?
    ensures r.Ok? && reply.value.JObj? ==> r == reply
    ensures r.Ok? && reply.value.JNull? ==> r == Ok(JObj(map[]))
    ensures reply.Err? ==> r == reply
  {
    if reply.Err? then reply
    else if !(reply.value.JObj? || reply.value.JNull?) then Err(AssertionError)
    else if reply.value.JNull? || reply.value.fields == map[] then Ok(JObj(map[]))
    else reply
  }
}
