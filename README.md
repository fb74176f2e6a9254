# Wildberries product lookup: the response extraction of `get_wb_info`

`get_wb_info(article)` asks the Wildberries catalogue API for one article and
turns the decoded JSON answer into `{"Title": name, "Price": roubles}` or
`None`. This project models the part of it that is logic rather than I/O: what
it does with the value `fetch_product_data` returned.

- `py_json.dfy`, module `PyJson`: decoded JSON values as Python holds them
  (`None`, `bool`, `int`, `str`, `list`, `dict`), and the Python operations the
  extraction uses on them: truth testing, `dict.get(key, default)`, `x[0]` and
  `x // 100`. Each yields a value or raises `AttributeError`, `IndexError`,
  `KeyError` or `TypeError`, as the interpreter does for that value.
- `get_wb_info.dfy`, module `WbInfo`: `GetWbInfo` maps the fetched
  `Option<Json>` to `NoResult` (the function returns `None`), `Found(title,
  price)` (it returns the two-key dictionary) or `Crash(e)` (it raises `e`;
  nothing in lines 43-64 is inside a `try`). The `.get` chain is proved against
  a declarative description of the expected response shape
  `{"data": {"products": [{"name": ..., "sizes": [{"price": {"product": ...}}]}]}}`
  (`FirstProductIs`, `PriceIs`, `TitleOf`, `Listed`).

Where the code's behaviour is not what a reader might expect, the model follows
the code:

- An empty `sizes` list is not read as a missing price: line 54 indexes
  `sizes[0]` regardless and raises `IndexError`.
- Not every malformed response gives `None`. A missing `sizes`, `price` or
  `product` key defaults the price to `""`, which passes the `None` check and
  makes `"" // 100` raise `TypeError` (lines 54-55, 63).
- A `"data": null` member raises `AttributeError` (line 47).
- When the title is `None`, the `None` check at line 57 returns first, so
  `"" // 100` is never evaluated.

## Model

| member | source | states |
|---|---|---|
| `PyJson.FalsyValues` | get_wb_info.py:43-48 | `not data` and `not products` hold exactly for `null`, `false`, `0`, `""`, `[]` and `{}` |
| `PyJson.FloorDiv100` | get_wb_info.py:63 | `price // 100` succeeds exactly on `int` (and `bool`); the result `q` satisfies `100q <= price < 100q + 100`, i.e. floor division; any other operand raises `TypeError` |
| `PyJson.FloorDiv100Unique` | get_wb_info.py:63 | the quotient is the unique `q` with `100q <= price < 100q + 100` |
| `PyJson.FloorDiv100Examples` | get_wb_info.py:63 | 19999 -> 199, 12345 -> 123, 100 -> 1, 99 -> 0, 0 -> 0; -1 -> -1 and -101 -> -2 (rounding down, not towards zero); `True` -> 0; `""` raises `TypeError` |
| `WbInfo.GetWbInfo` | get_wb_info.py:42-64 | an absent or falsy response gives `None`; a found title is never `null`; success needs a dictionary response |
| `WbInfo.ReturnValue` | get_wb_info.py:43-67 | the returned value is `None` exactly when nothing was found; otherwise a dictionary with exactly the keys `Title` and `Price`, holding the title unchanged and the converted price |
| `WbInfo.FoundIsListed` | get_wb_info.py:47-64 | every success read `data.products[0]`, a dictionary with a numeric `sizes[0].price.product`; its title is the `name` (or `""` when missing) and its price that value floored to roubles |
| `WbInfo.ListedIsFound` | get_wb_info.py:47-64 | every response of that shape with a non-null title is found with that title and that price |
| `WbInfo.FoundIff` | get_wb_info.py:47-64 | both directions together: `Found(title, price)` if and only if the response has the expected shape with those values |
| `WbInfo.FirstProductDecides` | get_wb_info.py:47-52 | when `data.products` is a non-empty list, the outcome is that of `products[0]` alone, whatever else the response holds |
| `WbInfo.LaterProductsIgnored` | get_wb_info.py:52 | changing or appending products after the first never changes the outcome |
| `WbInfo.FalsyResponseIsNoResult` | get_wb_info.py:42-45 | no response, or a falsy one (`null`, `false`, `0`, `""`, `[]`, `{}`), gives `None` |
| `WbInfo.NonObjectResponseCrashes` | get_wb_info.py:47 | a truthy response that is not a dictionary raises `AttributeError` |
| `WbInfo.MissingProductsIsNoResult` | get_wb_info.py:47-50 | a missing `data` or `products` key, or a falsy `products` (empty list included), gives `None` |
| `WbInfo.NonObjectDataCrashes` | get_wb_info.py:47 | a `data` member that is not a dictionary, `null` included, raises `AttributeError` |
| `WbInfo.NonListProductsCrash` | get_wb_info.py:48-53 | for any dictionary response whose `data.products` is truthy and not a list, the lookup raises: `KeyError` for a dictionary, `AttributeError` for a string, `TypeError` for a number |
| `WbInfo.MissingOrEmptyNameAccepted` | get_wb_info.py:53-64 | a first product with no `name`, or with name `""`, is found with title `""` |
| `WbInfo.NullNameIsNoResult` | get_wb_info.py:53-59 | an explicit `null` name gives `None` whenever `sizes` is absent, or is a non-empty list whose first element is a dictionary with `price` absent or a dictionary |
| `WbInfo.NullPriceIsNoResult` | get_wb_info.py:54-59 | an explicit `null` at `sizes[0].price.product` gives `None` |
| `WbInfo.EmptySizesCrashes` | get_wb_info.py:54 | a present but empty `sizes` list raises `IndexError`, whatever the name |
| `WbInfo.MissingPriceKeyCrashes` | get_wb_info.py:54-63 | with a non-null title, a missing `sizes`, `price` or `product` key defaults the price to `""` and raises `TypeError` at `// 100` |
| `WbInfo.NonNumericPriceCrashes` | get_wb_info.py:55-63 | with a non-null title, a price that is neither a number nor `null` raises `TypeError` |
| `WbInfo.ScenarioWidget` | get_wb_info.py:43-64 | the response `{"data": {"products": [{"name": "Widget", "sizes": [{"price": {"product": 19999}}]}]}}` gives title "Widget" and price 199 |
| `WbInfo.ScenarioNoProducts` | get_wb_info.py:47-50 | `{"data": {"products": []}}` gives `None` |
| `WbInfo.ScenarioNullName` | get_wb_info.py:53-59 | a product named `null` priced 500 gives `None` |

## Left out

- `fetch_product_data` (get_wb_info.py:17-36) is network I/O through `requests`: the URL, the headers, the 10-second timeout, `raise_for_status` and JSON decoding. Its result is the input `fetched: Option<Json>`. `None` stands for every exception it catches and for a JSON `null` body.
- Logging (get_wb_info.py:5-8 and the `logging` calls) is a side effect only.
- The `__main__` loop over three example articles (get_wb_info.py:70-74) is a demonstration driver.
- Numbers Python decodes as `float` (written with a fraction or an exponent) are not represented, so `float // 100` is not modelled. `bool` prices are modelled as Python's integers 0 and 1.
- `Crash` records which built-in exception is raised, but not its message or traceback.
