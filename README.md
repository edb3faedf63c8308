# Gold rate calculator: a Dafny model of app.py

app.py is a single-page Streamlit calculator. It gets the spot gold price
(XAU, USD per troy ounce) from Investing.com, and from Yahoo Finance if that
fails with anything but an HTTP error. It gets the USD→INR rate from exchangerate.host. It keeps the last
result in the session cache. It then shows INR per 10 g at 24K, 22K and
18K, before tax, after import duty and after GST.

The model covers the parts of app.py that decide something:

- `Json`, `Numeral`: a decoded JSON value, plus the Python semantics the
  extractors use: truthiness, `isinstance(v, (int, float))`, `dict.get`,
  and `float(v)`, including `float` of a decimal string.
- `Sources`: `fetch_investing_xau`, `fetch_yahoo_xau` and `fetch_usd_inr`.
  Each is a pure function from an abstract fetch outcome
  (`HttpError(detail) | OtherError | Ok(json)`) to a price or the exception
  the source raises.
- `Conversion`: the arithmetic of `convert_and_display`. The loop that fills
  the `taxed` table is a method, proved against the function `TaxTable`. The
  guard cases of the rounding helper `r` are covered too.
- `App`: `main` and `clear_cache_fn` as methods of a `Session` class whose
  field is the session cache. `Session.RunMain` (the source's `main`) is proved equal to the function
  `MainSpec`. Lemmas about `MainSpec` state the fallback and cache policy.
  A run also reports which endpoints it requested, in order, so "Yahoo is
  never tried" and "nothing is fetched" can be stated.

app.py has no retries, no HTTP 429 handling and no cache expiry: its cache
never expires. `last_fetched` is never compared with the clock: it is
displayed, and `main` tests only whether it is present and non-empty.

Details of the source that the model reproduces:

- Investing.com: once a shape matches, its value goes to `float`. If
  `float` rejects it, the whole extraction fails. Later shapes are not
  tried.
- Yahoo: the selection is Python's `a or b or c`. When no candidate is
  truthy, the result is the `ask` value even if that is falsy. So a quote
  whose only price is an `ask` of 0 gives a price of 0
  (`Sources.YahooZeroAskAccepted`). A chosen value that is missing or null
  fails at the `is not None` test, and so does any chosen value `float`
  rejects: an `ask` of "", or a truthy `regularMarketPrice` of "n/a" even when
  a numeric `ask` follows (`Sources.YahooRejectsUnconvertible`).
- USD→INR: a falsy rate (missing, null, a numeric 0) is an error, and so is a
  truthy rate `float` rejects. A string "0" is truthy, so it gives a rate of 0
  (`Sources.UsdInrStringZeroAccepted`).
- `main` checks `last_fetched` twice, in two different ways. The first test
  is `is None` and the second is truthiness. A cache whose stamp is the
  empty string therefore starts a fresh fetch without a press
  (`App.EmptyStampRefetches`). Stamps come from `strftime` and are never
  empty, so this cannot happen in practice.

## Model

| member | source | states |
|---|---|---|
| `Json.ToFloat` | app.py:55-72 | `float(v)` succeeds exactly on numbers, booleans and numeric strings; it returns a number unchanged and a boolean as 1.0 or 0.0 |
| `Numeral.ParseShow` | app.py:55 | `float` of the decimal digits of a natural number, with or without a sign, gives back that number |
| `Numeral.ParseFraction` | app.py:55 | `float` of "whole.frac", unsigned, with "+" or with "-", is the value of the whole digits plus the fraction digits read as 0.d1d2…; either part may be empty (".5", "3.") and may have leading zeros, as long as one digit is written |
| `Numeral.RejectsDigitless` | app.py:55 | `float` rejects "", ".", "-" and "-." |
| `Sources.FirstSome` | app.py:53-72 | the first candidate present is returned exactly when some candidate is present, and every earlier candidate is absent |
| `Sources.InvestingFieldIsFirstShape` | app.py:53-72 | the nested tests choose the first shape present in the fixed priority `last`, last `series` point's `value`, last `data` element if numeric, its `close`, `price` |
| `Sources.Investing` | app.py:38-78 | only an HTTP error is re-raised as an HTTP error; every other failure is the "expected format" error; success happens exactly when the first matching shape's value converts, and the price is that value |
| `Sources.InvestingMatchedShapeDecides` | app.py:53-72 | once a shape matches, the result is that value converted, or the format failure if `float` rejects it, whatever later shapes hold |
| `Sources.Yahoo` | app.py:80-94 | success needs a non-empty `quoteResponse.result` list; every failure, an HTTP error included, is the Yahoo fallback error |
| `Sources.YahooPriority` | app.py:87-91 | the price comes from a truthy `regularMarketPrice`, else a truthy `bid`, else `ask`, converted by `float`; a missing or null chosen value fails, and so does one `float` rejects |
| `Sources.YahooRejectsUnconvertible` | app.py:89-93 | an `ask` of "" and a truthy `regularMarketPrice` of "n/a" (with a numeric `ask` after it) both fail, because `float` rejects the chosen value |
| `Sources.YahooZeroAskAccepted` | app.py:89-91 | a quote whose only price is an `ask` of 0 gives a price of 0 |
| `Sources.UsdInr` | app.py:96-110 | a successful rate is the converted, truthy `rates.INR` of the response, never a default; a numeric rate succeeds exactly when it is non-zero |
| `Sources.UsdInrNumeric` | app.py:104-106 | a numeric `rates.INR` is returned exactly, except that zero is an error |
| `Sources.UsdInrStringZeroAccepted` | app.py:104-106 | a rate given as the string "0" is truthy and is returned as 0 |
| `Sources.UsdInrMissing` | app.py:104-110 | a missing or null `rates.INR` is an error |
| `Conversion.Rates` | app.py:114-121 | the table has 24K, 22K and 18K in that order, each worth its parts in 24 of the pure-gold INR price per 10 g |
| `Conversion.TaxTable` | app.py:123-127 | every rate is taxed, in the same order and with the same length |
| `Conversion.ConvertAndDisplay` | app.py:112-127 | the loop builds exactly the taxed table; each row's pre-tax value is its rate and after-GST value is pre-tax · (1 + duty/100) · (1 + gst/100) |
| `Conversion.KaratRatios` | app.py:114-121 | 24K = xau / 31.1034768 · 10 · usd_inr; 22K is exactly 22/24 and 18K exactly 18/24 of 24K |
| `Conversion.KaratOrder` | app.py:119-121 | for a non-negative price and rate, 0 ≤ 18K ≤ 22K ≤ 24K |
| `Conversion.TaxCompounds` | app.py:124-127 | after_gst = pre_tax · (1 + duty/100) · (1 + gst/100), with duty applied before GST |
| `Conversion.TaxNeverLowers` | app.py:124-127 | with non-negative percentages (the sidebar minimum, app.py:23-24) and a non-negative price, pre_tax ≤ after_import ≤ after_gst |
| `Conversion.WorkedFigure` | app.py:114-127 | 2000 USD/oz at 83 INR/USD with 10% duty and 3% GST gives between 60468.48 and 60468.49 INR per 10 g of 24K |
| `Conversion.R` | app.py:130-135 | `r` returns its input unchanged exactly when the input is non-finite or `round_to` ≤ 0; otherwise it rounds a finite value to a positive step |
| `App.Session.constructor` | app.py:28-29 | a new session starts with an empty cache |
| `App.Session.ClearCacheFn` | app.py:31-33 | clearing always leaves the cache empty |
| `App.Session.RunMain` | app.py:145-214 | the shown outcome, the new cache and the endpoints requested are those of `MainSpec` applied to the old cache |
| `App.Session.Rerun` | app.py:35-36 | a rerun handles a Clear cache press before `main` runs, so `main` then starts from an empty cache |
| `App.IdleWithoutCache` | app.py:147-149 | without a press and with an empty cache, the run only prompts: nothing is requested, cached or converted |
| `App.ReusesCache` | app.py:152-160 | without a press, a cache holding a stamp is shown and converted; nothing is requested and the cache is unchanged |
| `App.HttpErrorAborts` | app.py:166-172 | an HTTP error from Investing.com aborts the fetch; only Investing.com is requested, there is one diagnostic and the cache is unchanged |
| `App.OtherFailureFallsBack` | app.py:173-179 | any other Investing.com failure moves on to Yahoo, and its diagnostic is the first one recorded |
| `App.AllSourcesFail` | app.py:176-182 | if Yahoo also fails, the run fails with "All price fetch attempts failed." and both diagnostics in order; the rate is never requested and the cache is unchanged |
| `App.InvestingSuccessSkipsYahoo` | app.py:166-184 | after an Investing.com success, Yahoo is never requested and no diagnostic is recorded |
| `App.CacheReplacedOnlyOnFullSuccess` | app.py:184-192 | the cache is replaced as a whole exactly when a fetch runs and both the spot price and the INR rate succeed; any other run leaves it unchanged |
| `App.ConsultedOrder` | app.py:166-184 | endpoints are requested in a fixed order, each at most once; none without a fetch; the rate only after a price |
| `App.EmptyStampRefetches` | app.py:147-152 | without a press, a cache whose stamp is empty starts a fresh fetch, because the two guards test `last_fetched` differently |

## Left out

- All `st.*` calls are left out: page layout, buttons, sidebar widgets, messages and the `,` number formatting. The buttons, the duty and GST percentages, and `round_to` are plain inputs.
- The network is left out: `requests.get`, headers, timeouts, `raise_for_status` and `resp.json()` become the abstract `Fetch` outcome. The text of an `HTTPError` is its opaque `detail`.
- The clock is left out: `datetime.utcnow().strftime(...)` is the opaque `stamp` string passed to `main`.
- Floating point is left out: prices, rates and taxes are exact reals, so Python's float rounding of `22/24`, `/ 31.1034768` and the tax products is not captured, and neither is overflow to infinity: Python's `json` decodes 1e400 to `inf`, and the products can overflow. So the non-finite guard of `r` can be reached in the source but not from a fetched value here. `Conversion.PyFloat` exists only for that guard.
- Conversion.R: the rounding branch `round(round(x/round_to)*round_to, 2)` is left out (banker's rounding on floats). The model says only that this branch is taken and with which step. Which rounded figures are displayed is not modelled.
- Json.ToFloat: `float` of a string accepts only an optional sign and ASCII digits with at most one decimal point. Python also accepts surrounding whitespace, exponents, underscores, "inf", "infinity" and "nan" in any case, and non-ASCII decimal digits; the model rejects all of these. The model also never raises where Python's `float` raises OverflowError on a JSON integer too large for a float.
- Non-finite JSON numbers are left out: `resp.json()` accepts the literals `NaN`, `Infinity` and `-Infinity`, which `JNum(real)` cannot hold. So the non-finite guard of `r` is never reached from a fetched value in this model.
- JSON numbers are a single kind, so Python's int/float distinction is not kept. `isinstance(v, (int, float))` is true of numbers and booleans alike, as in Python.
- Retry, backoff, rate-limit handling and cache expiry are left out because app.py has none of them.
