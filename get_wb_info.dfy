/**
 The response-extraction step of `get_wb_info`: given what `fetch_product_data`
 returned (a decoded JSON value, or `None` after any failure), walk
 `data.products[0]`, read its `name` and `sizes[0].price.product` with the
 `.get` defaults of the source, reject nulls, and convert the price from kopecks
 to roubles with `// 100`. No step is guarded by a `try`, so an unexpected shape
 ends in one of Python's exceptions, which the model reports as `Crash`.
 */
module WbInfo {
  import opened PyJson

  /** What one call of `get_wb_info` does: return `None`, return the
      `{"Title": ..., "Price": ...}` dictionary, or raise. */
  datatype Outcome = NoResult | Found(title: Json, price: int) | Crash(error: PyError)

  const EmptyObject: Json := JObj(map[])

  /** `price_info.get("product", "")` after `product.get("sizes", [{}])[0].get("price", {})`. */
  function ListedPrice(product: Json): PyResult<Json> {
    var sizes :- Get(product, "sizes", JArr([EmptyObject]));
    var size :- First(sizes);
    var priceInfo :- Get(size, "price", EmptyObject);
    Get(priceInfo, "product", JStr(""))
  }

  /** Everything `get_wb_info` does with `products[0]`: the title and the price in
      roubles, `None` when either is null, or the exception raised on the way. */
  function ReadProduct(product: Json): PyResult<Option<(Json, int)>> {
    var title :- Get(product, "name", JStr(""));
    var price :- ListedPrice(product);
    if title == JNull || price == JNull then Ok(None)
    else
      var roubles :- FloorDiv100(price);
      Ok(Some((title, roubles)))
  }

  /** Everything `get_wb_info` does with a truthy response. */
  function ReadResponse(data: Json): PyResult<Option<(Json, int)>> {
    var inner :- Get(data, "data", EmptyObject);
    var products :- Get(inner, "products", JArr([]));
    if !Truthy(products) then Ok(None)
    else
      var product :- First(products);
      ReadProduct(product)
  }

  function ToOutcome(r: PyResult<Option<(Json, int)>>): Outcome {
    match r
    case Raise(e) => Crash(e)
    case Ok(None) => NoResult
    case Ok(Some((title, price))) => Found(title, price)
  }

  /** The outcome for a single product taken as `products[0]`. */
  function ProductOutcome(product: Json): Outcome {
    ToOutcome(ReadProduct(product))
  }

  /** `get_wb_info(article)`, given `fetch_product_data(article)`. */
  function GetWbInfo(fetched: Option<Json>): (o: Outcome)
    ensures fetched.None? || !Truthy(fetched.value) ==> o == NoResult
    ensures o.Found? ==> o.title != JNull
    ensures o.Found? ==> fetched.Some? && fetched.value.JObj?
  {
    match fetched
    case None => NoResult
    case Some(data) =>
      if !Truthy(data) then NoResult
      else ToOutcome(ReadResponse(data))
  }

  /** The value `get_wb_info` returns when it does not raise: `None`, or a
      dictionary with exactly the keys `Title` and `Price`. */
  function ReturnValue(o: Outcome): (r: Json)
    requires !o.Crash?
    ensures r == JNull <==> o.NoResult?
    ensures o.Found? ==> r.JObj? && r.fields.Keys == {"Title", "Price"}
    ensures o.Found? ==> r.fields["Title"] == o.title && r.fields["Price"] == JInt(o.price)
  {
    if o.NoResult? then JNull else JObj(map["Title" := o.title, "Price" := JInt(o.price)])
  }

  // ---------------------------------------------------------------------------
  // A declarative reading of the expected response shape
  //   {"data": {"products": [{"name": ..., "sizes": [{"price": {"product": ...}}]}]}}
  // stated without the `.get` chain, against which the extraction is proved.

  /** `product` is `data.products[0]` and `products` is a non-empty list. */
  ghost predicate FirstProductIs(response: Json, product: Json) {
    && response.JObj? && "data" in response.fields
    && response.fields["data"].JObj? && "products" in response.fields["data"].fields
    && response.fields["data"].fields["products"].JArr?
    && |response.fields["data"].fields["products"].elems| > 0
    && response.fields["data"].fields["products"].elems[0] == product
  }

  /** `price` is present at `sizes[0].price.product` of the product. */
  ghost predicate PriceIs(product: Json, price: Json) {
    && product.JObj? && "sizes" in product.fields
    && product.fields["sizes"].JArr? && |product.fields["sizes"].elems| > 0
    && product.fields["sizes"].elems[0].JObj?
    && "price" in product.fields["sizes"].elems[0].fields
    && product.fields["sizes"].elems[0].fields["price"].JObj?
    && "product" in product.fields["sizes"].elems[0].fields["price"].fields
    && product.fields["sizes"].elems[0].fields["price"].fields["product"] == price
  }

  /** The product's `name`, or the empty string when it has none. */
  ghost function TitleOf(product: Json): Json
    requires product.JObj?
  {
    if "name" in product.fields then product.fields["name"] else JStr("")
  }

  /** The expected response envelope `{"data": {"products": [...]}}` around a list of products. */
  function Envelope(products: seq<Json>): Json {
    JObj(map["data" := JObj(map["products" := JArr(products)])])
  }

  /** The response has the expected shape down to a numeric `sizes[0].price.product`
      and a non-null title, which are `title` and `price` in roubles. */
  ghost predicate Listed(response: Json, title: Json, price: int) {
    exists product, cents ::
      && FirstProductIs(response, product) && PriceIs(product, cents)
      && title == TitleOf(product) && title != JNull
      && IsNumber(cents) && price * 100 <= NumberOf(cents) < price * 100 + 100
  }

  // ---------------------------------------------------------------------------
  // Properties

  /** Every successful lookup read a response of the expected shape. */
  lemma FoundIsListed(response: Json, title: Json, price: int)
    requires GetWbInfo(Some(response)) == Found(title, price)
    ensures Listed(response, title, price)
  {
    var product := response.fields["data"].fields["products"].elems[0];
    var cents := ListedPrice(product).value;
    assert FirstProductIs(response, product) && PriceIs(product, cents);
  }

  /** Every response of the expected shape is found, with the name as given (empty
      when missing) and the price floored to roubles. */
  lemma ListedIsFound(response: Json, title: Json, price: int)
    requires Listed(response, title, price)
    ensures GetWbInfo(Some(response)) == Found(title, price)
  {
  }

  /** A lookup succeeds exactly when the response has the expected shape. */
  lemma FoundIff(response: Json, title: Json, price: int)
    ensures GetWbInfo(Some(response)) == Found(title, price) <==> Listed(response, title, price)
  {
    if GetWbInfo(Some(response)) == Found(title, price) {
      FoundIsListed(response, title, price);
    }
    if Listed(response, title, price) {
      ListedIsFound(response, title, price);
    }
  }

  /** Only `products[0]` is read: any response whose first product is `product`
      has the outcome of `product` alone, whatever else the response holds. */
  lemma FirstProductDecides(response: Json, product: Json)
    requires FirstProductIs(response, product)
    ensures GetWbInfo(Some(response)) == ProductOutcome(product)
  {
  }

  /** Changing or appending products after the first never changes the outcome. */
  lemma LaterProductsIgnored(ps: seq<Json>, qs: seq<Json>)
    requires |ps| > 0 && |qs| > 0 && ps[0] == qs[0]
    ensures GetWbInfo(Some(Envelope(ps))) == GetWbInfo(Some(Envelope(qs)))
  {
  }

  /** No response, or a falsy one (`null`, `false`, `0`, `""`, `[]`, `{}`), gives `None`. */
  lemma FalsyResponseIsNoResult(response: Json)
    requires response in [JNull, JBool(false), JInt(0), JStr(""), JArr([]), JObj(map[])]
    ensures GetWbInfo(Some(response)) == NoResult
    ensures GetWbInfo(None) == NoResult
  {
  }

  /** A truthy response that is not a dictionary has no `get`. */
  lemma NonObjectResponseCrashes(response: Json)
    requires Truthy(response) && !response.JObj?
    ensures GetWbInfo(Some(response)) == Crash(AttributeError)
  {
  }

  /** A missing `data` or `products` key, or a falsy `products`, gives `None`. */
  lemma MissingProductsIsNoResult(response: Json)
    requires response.JObj? && Truthy(response)
    requires || "data" !in response.fields
             || (&& response.fields["data"].JObj?
                 && ("products" !in response.fields["data"].fields
                     || !Truthy(response.fields["data"].fields["products"])))
    ensures GetWbInfo(Some(response)) == NoResult
  {
  }

  /** A `data` that is present but not a dictionary (`null` included) has no `get`. */
  lemma NonObjectDataCrashes(response: Json)
    requires response.JObj? && "data" in response.fields && !response.fields["data"].JObj?
    ensures GetWbInfo(Some(response)) == Crash(AttributeError)
  {
  }

  /** A truthy `products` that is not a list cannot be indexed into a product: `[0]` on
      a dictionary or a number raises, and on a string it yields a string without `get`. */
  lemma NonListProductsCrash(response: Json)
    requires response.JObj? && "data" in response.fields && response.fields["data"].JObj?
    requires "products" in response.fields["data"].fields
    requires Truthy(response.fields["data"].fields["products"])
    requires !response.fields["data"].fields["products"].JArr?
    ensures response.fields["data"].fields["products"].JObj? ==>
      GetWbInfo(Some(response)) == Crash(KeyError)
    ensures response.fields["data"].fields["products"].JStr? ==>
      GetWbInfo(Some(response)) == Crash(AttributeError)
    ensures IsNumber(response.fields["data"].fields["products"]) ==>
      GetWbInfo(Some(response)) == Crash(TypeError)
  {
  }

  /** A product without `name` is titled with the empty string, and so is one named `""`. */
  lemma MissingOrEmptyNameAccepted(product: Json, cents: Json)
    requires product.JObj? && ("name" !in product.fields || product.fields["name"] == JStr(""))
    requires PriceIs(product, cents) && IsNumber(cents)
    ensures ProductOutcome(product) == Found(JStr(""), NumberOf(cents) / 100)
  {
  }

  /** An explicit `null` name gives `None`, provided the price lookup does not raise:
      `sizes` is absent, or a non-empty list whose first element is a dictionary whose
      `price` is absent or a dictionary. */
  lemma NullNameIsNoResult(product: Json)
    requires product.JObj? && "name" in product.fields && product.fields["name"] == JNull
    requires || "sizes" !in product.fields
             || (&& product.fields["sizes"].JArr? && |product.fields["sizes"].elems| > 0
                 && product.fields["sizes"].elems[0].JObj?
                 && var size := product.fields["sizes"].elems[0].fields;
                    "price" !in size || size["price"].JObj?)
    ensures ProductOutcome(product) == NoResult
  {
  }

  /** An explicit `null` at `sizes[0].price.product` gives `None`. */
  lemma NullPriceIsNoResult(product: Json)
    requires PriceIs(product, JNull)
    ensures ProductOutcome(product) == NoResult
  {
  }

  /** A present but empty `sizes` list is indexed anyway. */
  lemma EmptySizesCrashes(product: Json)
    requires product.JObj? && "sizes" in product.fields && product.fields["sizes"] == JArr([])
    ensures ProductOutcome(product) == Crash(IndexError)
  {
  }

  /** A missing `sizes`, `price` or `product` key defaults the price to `""`, which passes
      the null check (when the title is not null) and cannot be floor-divided. */
  lemma MissingPriceKeyCrashes(product: Json)
    requires product.JObj? && TitleOf(product) != JNull
    requires || "sizes" !in product.fields
             || (&& product.fields["sizes"].JArr? && |product.fields["sizes"].elems| > 0
                 && product.fields["sizes"].elems[0].JObj?
                 && var size := product.fields["sizes"].elems[0].fields;
                    || "price" !in size
                    || (size["price"].JObj? && "product" !in size["price"].fields))
    ensures ProductOutcome(product) == Crash(TypeError)
  {
  }

  /** A non-numeric price other than `null` cannot be floor-divided. */
  lemma NonNumericPriceCrashes(product: Json, price: Json)
    requires PriceIs(product, price) && price != JNull && !IsNumber(price)
    requires TitleOf(product) != JNull
    ensures ProductOutcome(product) == Crash(TypeError)
  {
  }

  /** A well-formed response is found; its price of 19999 kopecks is 199 roubles. */
  lemma ScenarioWidget()
    ensures GetWbInfo(Some(Envelope([JObj(map["name" := JStr("Widget"),
      "sizes" := JArr([JObj(map["price" := JObj(map["product" := JInt(19999)])])])])])))
      == Found(JStr("Widget"), 199)
  {
  }

  /** An empty product list gives `None`. */
  lemma ScenarioNoProducts()
    ensures GetWbInfo(Some(Envelope([]))) == NoResult
  {
  }

  /** A null name gives `None`. */
  lemma ScenarioNullName()
    ensures GetWbInfo(Some(Envelope([JObj(map["name" := JNull,
      "sizes" := JArr([JObj(map["price" := JObj(map["product" := JInt(500)])])])])])))
      == NoResult
  {
  }
}
