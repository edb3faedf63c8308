/**
 * The three fetch functions of app.py with the network replaced by an
 * abstract outcome: `fetch_investing_xau`, `fetch_yahoo_xau` and
 * `fetch_usd_inr`.  Each one picks a number out of the decoded response by a
 * fixed priority of shapes, or raises.
 */
module Sources {
  import opened Wrappers
  import opened Json

  /** What `requests.get`, `raise_for_status()` and `resp.json()` together yield. */
  datatype Fetch =
    | HttpError(detail: string)   // raise_for_status raised; detail is str(HTTPError)
    | OtherError                  // connection failure, timeout, undecodable body
    | Ok(body: Json)

  /** The exception a fetch function raises. */
  datatype Err = HttpErr(detail: string) | Runtime(message: string) {
    /** str(e) */
    function Text(): string {
      match this
      case HttpErr(d) => d
      case Runtime(m) => m
    }
  }

  /** A spot price in USD per troy ounce and the name of the source it came from. */
  datatype Quote = Quote(xau: real, source: string)

  const InvestingName := "Investing.com API"
  const YahooName := "Yahoo Finance"
  const InvestingFormatMsg := "Investing.com endpoint didn't return price in expected format."
  const YahooMsg := "Yahoo Finance fallback failed."
  const UsdInrMsg := "Failed to fetch USD→INR from exchangerate.host. Check network."

  // ---------------------------------------------------------------------
  // fetch_investing_xau

  /** The shapes the Investing.com response is searched for, each giving the value handed to float(). */
  function LastShape(data: Json): Option<Json> {
    if data.JObj? && "last" in data.fields then Some(data.fields["last"]) else None
  }

  function SeriesShape(data: Json): Option<Json> {
    if data.JObj? && "series" in data.fields && data.fields["series"].JArr?
       && |data.fields["series"].items| > 0
    then
      var point := Last(data.fields["series"].items);
      if point.JObj? && "value" in point.fields then Some(point.fields["value"]) else None
    else None
  }

  function DataNumberShape(data: Json): Option<Json> {
    if data.JObj? && "data" in data.fields && data.fields["data"].JArr?
       && |data.fields["data"].items| > 0 && IsNumber(Last(data.fields["data"].items))
    then Some(Last(data.fields["data"].items))
    else None
  }

  function DataCloseShape(data: Json): Option<Json> {
    if data.JObj? && "data" in data.fields && data.fields["data"].JArr?
       && |data.fields["data"].items| > 0
    then
      var last := Last(data.fields["data"].items);
      if last.JObj? && "close" in last.fields then Some(last.fields["close"]) else None
    else None
  }

  function PriceShape(data: Json): Option<Json> {
    if data.JObj? && "price" in data.fields then Some(data.fields["price"]) else None
  }

  /** The shapes in the order the source tries them. */
  function Shapes(data: Json): seq<Option<Json>> {
    [LastShape(data), SeriesShape(data), DataNumberShape(data), DataCloseShape(data), PriceShape(data)]
  }

  /** The first candidate present, if any. */
  function FirstSome(s: seq<Option<Json>>): (r: Option<Json>)
    ensures r.Some? <==> exists i :: 0 <= i < |s| && s[i].Some?
    ensures r.Some? ==> exists i :: 0 <= i < |s| && s[i] == r && forall j :: 0 <= j < i ==> s[j].None?
  {
    if s == [] then None
    else if s[0].Some? then s[0]
    else
      var r := FirstSome(s[1..]);
      assert forall i :: 0 < i < |s| ==> s[i] == s[1..][i - 1];
      r
  }

  /**
   * The value fetch_investing_xau hands to float(), following the nesting of
   * its tests: `last`, else the last `series` point's `value`, else the last
   * `data` element if it is a number, else that element's `close`, else `price`.
   */
  function InvestingField(data: Json): Option<Json> {
    if !data.JObj? then None
    else
      var m := data.fields;
      if "last" in m then Some(m["last"])
      else if "series" in m && m["series"].JArr? && |m["series"].items| > 0
              && Last(m["series"].items).JObj? && "value" in Last(m["series"].items).fields
      then Some(Last(m["series"].items).fields["value"])
      else if "data" in m && m["data"].JArr? && |m["data"].items| > 0
              && IsNumber(Last(m["data"].items))
      then Some(Last(m["data"].items))
      else if "data" in m && m["data"].JArr? && |m["data"].items| > 0
              && Last(m["data"].items).JObj? && "close" in Last(m["data"].items).fields
      then Some(Last(m["data"].items).fields["close"])
      else if "price" in m then Some(m["price"])
      else None
  }

  /** The nested tests of the source pick exactly the first shape, in priority order, that is present. */
  lemma InvestingFieldIsFirstShape(data: Json)
    ensures InvestingField(data) == FirstSome(Shapes(data))
  {
    var s := Shapes(data);
    var s1, s2, s3, s4 := s[1..], s[2..], s[3..], s[4..];
    assert s1[1..] == s2 && s2[1..] == s3 && s3[1..] == s4 && s4[1..] == [];
    assert FirstSome(s4) == s[4];
    assert FirstSome(s3) == if s[3].Some? then s[3] else FirstSome(s4);
    assert FirstSome(s2) == if s[2].Some? then s[2] else FirstSome(s3);
    assert FirstSome(s1) == if s[1].Some? then s[1] else FirstSome(s2);
  }

  /** fetch_investing_xau: an HTTP error is re-raised as is; every other failure becomes the "expected format" error. */
  function Investing(f: Fetch): (r: Result<Quote, Err>)
    ensures (r.Failure? && r.error.HttpErr?) <==> f.HttpError?
    ensures f.HttpError? ==> r == Failure(HttpErr(f.detail))
    ensures r.Failure? && !f.HttpError? ==> r.error == Runtime(InvestingFormatMsg)
    ensures r.Success? ==> f.Ok? && r.value.source == InvestingName
    ensures f.Ok? ==>
      (r.Success? <==> FirstSome(Shapes(f.body)).Some? && ToFloat(FirstSome(Shapes(f.body)).value).Some?)
    ensures r.Success? ==> Some(r.value.xau) == ToFloat(FirstSome(Shapes(f.body)).value)
  {
    match f
    case HttpError(d) => Failure(HttpErr(d))
    case OtherError => Failure(Runtime(InvestingFormatMsg))
    case Ok(data) =>
      InvestingFieldIsFirstShape(data);
      match InvestingField(data)
      case None => Failure(Runtime(InvestingFormatMsg))
      case Some(v) =>
        match ToFloat(v)
        case Some(x) => Success(Quote(x, InvestingName))
        case None => Failure(Runtime(InvestingFormatMsg))
  }

  /**
   * Once a shape is matched the search stops: the matched value is converted
   * or the whole extraction fails, whatever later shapes hold.
   */
  lemma InvestingMatchedShapeDecides(data: Json, i: nat)
    requires i < |Shapes(data)| && Shapes(data)[i].Some?
    requires forall j :: 0 <= j < i ==> Shapes(data)[j].None?
    ensures Investing(Ok(data)) ==
      match ToFloat(Shapes(data)[i].value)
      case Some(x) => Success(Quote(x, InvestingName))
      case None => Failure(Runtime(InvestingFormatMsg))
  {
  }

  // ---------------------------------------------------------------------
  // fetch_yahoo_xau

  /**
   * `j.get("quoteResponse", {}).get("result", [])` followed by the test
   * `q and isinstance(q, list)`; `None` where a `.get` on a non-dict raises
   * or the test fails.
   */
  function YahooQuotes(j: Json): Option<seq<Json>> {
    if !j.JObj? then None
    else
      var qr := Get(j.fields, "quoteResponse", JObj(map[]));
      if !qr.JObj? then None
      else
        var q := Get(qr.fields, "result", JArr([]));
        if q.JArr? && q.items != [] then Some(q.items) else None
  }

  /** Python's `a or b`. */
  function Or(a: Json, b: Json): Json {
    if Truthy(a) then a else b
  }

  /**
   * `q[0].get("regularMarketPrice") or q[0].get("bid") or q[0].get("ask")`;
   * `None` where `q[0]` is not a dict and `.get` raises.
   */
  function YahooChoice(q0: Json): Option<Json> {
    if !q0.JObj? then None
    else Some(Or(Or(Get(q0.fields, "regularMarketPrice", JNull), Get(q0.fields, "bid", JNull)),
                 Get(q0.fields, "ask", JNull)))
  }

  /** float(v) tagged as a Yahoo quote, or the Yahoo failure. */
  function YahooConvert(v: Json): Result<Quote, Err> {
    match ToFloat(v)
    case Some(x) => Success(Quote(x, YahooName))
    case None => Failure(Runtime(YahooMsg))
  }

  /** fetch_yahoo_xau: every failure, an HTTP error included, becomes the Yahoo fallback error. */
  function Yahoo(f: Fetch): (r: Result<Quote, Err>)
    ensures r.Failure? ==> r.error == Runtime(YahooMsg)
    ensures r.Success? ==> r.value.source == YahooName
    ensures r.Success? ==>
      && f.Ok? && f.body.JObj? && "quoteResponse" in f.body.fields
      && f.body.fields["quoteResponse"].JObj? && "result" in f.body.fields["quoteResponse"].fields
      && f.body.fields["quoteResponse"].fields["result"].JArr?
      && |f.body.fields["quoteResponse"].fields["result"].items| > 0
  {
    match f
    case Ok(j) =>
      (match YahooQuotes(j)
       case Some(q) =>
         (match YahooChoice(q[0])
          case Some(price) => if price.JNull? then Failure(Runtime(YahooMsg)) else YahooConvert(price)
          case None => Failure(Runtime(YahooMsg)))
       case None => Failure(Runtime(YahooMsg)))
    case _ => Failure(Runtime(YahooMsg))
  }

  /**
   * The price is taken from regularMarketPrice, else bid, else ask, skipping
   * falsy values (so a 0 falls through).  The last candidate is taken even
   * when falsy; the extraction fails only when it is None or float rejects it.
   */
  lemma YahooPriority(j: Json, m: map<string, Json>)
    requires YahooQuotes(j).Some? && YahooQuotes(j).value[0] == JObj(m)
    ensures Truthy(Get(m, "regularMarketPrice", JNull)) ==>
      Yahoo(Ok(j)) == YahooConvert(m["regularMarketPrice"])
    ensures !Truthy(Get(m, "regularMarketPrice", JNull)) && Truthy(Get(m, "bid", JNull)) ==>
      Yahoo(Ok(j)) == YahooConvert(m["bid"])
    ensures !Truthy(Get(m, "regularMarketPrice", JNull)) && !Truthy(Get(m, "bid", JNull)) ==>
      Yahoo(Ok(j)) == if Get(m, "ask", JNull).JNull? then Failure(Runtime(YahooMsg))
                      else YahooConvert(m["ask"])
  {
  }

  /** A quote whose only price is an ask of 0 yields a price of 0, because the `is not None` test lets it through. */
  lemma YahooZeroAskAccepted()
    ensures Yahoo(Ok(JObj(map["quoteResponse" := JObj(map["result" := JArr([JObj(map["ask" := JNum(0.0)])])])])))
            == Success(Quote(0.0, YahooName))
  {
    var q0 := JObj(map["ask" := JNum(0.0)]);
    var j := JObj(map["quoteResponse" := JObj(map["result" := JArr([q0])])]);
    assert YahooQuotes(j) == Some([q0]);
    assert YahooChoice(q0) == Some(JNum(0.0));
  }

  /**
   * A chosen value that is not None still fails when float rejects it: an
   * `ask` of "" (falsy, so chosen last) and a truthy `regularMarketPrice` of
   * "n/a" (chosen first, so a later numeric `ask` is never looked at).
   */
  lemma YahooRejectsUnconvertible()
    ensures Yahoo(Ok(JObj(map["quoteResponse" := JObj(map["result" := JArr([JObj(map["ask" := JStr("")])])])]))).Failure?
    ensures Yahoo(Ok(JObj(map["quoteResponse" := JObj(map["result" := JArr([
              JObj(map["regularMarketPrice" := JStr("n/a"), "ask" := JNum(5.0)])])])]))).Failure?
  {
    var a := JObj(map["ask" := JStr("")]);
    var ja := JObj(map["quoteResponse" := JObj(map["result" := JArr([a])])]);
    assert YahooQuotes(ja) == Some([a]);
    assert YahooChoice(a) == Some(JStr(""));
    Numeral.RejectsDigitless();
    var b := JObj(map["regularMarketPrice" := JStr("n/a"), "ask" := JNum(5.0)]);
    var jb := JObj(map["quoteResponse" := JObj(map["result" := JArr([b])])]);
    assert YahooQuotes(jb) == Some([b]);
    assert YahooChoice(b) == Some(JStr("n/a"));
    assert !Numeral.IsDigit('n');
    assert Numeral.ParseFloat("n/a") == None;
  }

  // ---------------------------------------------------------------------
  // fetch_usd_inr

  /** `j.get("rates", {}).get("INR")`; `None` where a `.get` on a non-dict raises. */
  function InrField(j: Json): Option<Json> {
    if !j.JObj? then None
    else
      var rates := Get(j.fields, "rates", JObj(map[]));
      if rates.JObj? then Some(Get(rates.fields, "INR", JNull)) else None
  }

  /**
   * fetch_usd_inr: the rate is `rates.INR` converted by float() when it is
   * truthy.  A falsy rate (missing, None, a numeric 0) is an error, and so is
   * one float rejects; no default rate is ever substituted.  A string "0" is
   * truthy and gives a rate of 0.
   */
  function UsdInr(f: Fetch): (r: Result<real, Err>)
    ensures r.Failure? ==> r.error == Runtime(UsdInrMsg)
    ensures r.Success? ==>
      f.Ok? && InrField(f.body).Some? && Truthy(InrField(f.body).value)
      && ToFloat(InrField(f.body).value) == Some(r.value)
    ensures (f.Ok? && InrField(f.body).Some? && Truthy(InrField(f.body).value)
             && ToFloat(InrField(f.body).value).Some?) ==> r.Success?
    ensures f.Ok? && InrField(f.body).Some? && InrField(f.body).value.JNum? ==>
      (r.Success? <==> InrField(f.body).value.n != 0.0)
  {
    match f
    case Ok(j) =>
      (match InrField(j)
       case Some(rate) =>
         if Truthy(rate) then
           (match ToFloat(rate)
            case Some(x) => Success(x)
            case None => Failure(Runtime(UsdInrMsg)))
         else Failure(Runtime(UsdInrMsg))
       case None => Failure(Runtime(UsdInrMsg)))
    case _ => Failure(Runtime(UsdInrMsg))
  }

  /** A numeric rate is returned exactly, unless it is zero. */
  lemma UsdInrNumeric(n: real)
    ensures UsdInr(Ok(JObj(map["rates" := JObj(map["INR" := JNum(n)])]))) ==
      if n == 0.0 then Failure(Runtime(UsdInrMsg)) else Success(n)
  {
    var j := JObj(map["rates" := JObj(map["INR" := JNum(n)])]);
    assert InrField(j) == Some(JNum(n));
  }

  /** A rate given as the string "0" is truthy, so float("0") = 0.0 is returned as the rate. */
  lemma UsdInrStringZeroAccepted()
    ensures UsdInr(Ok(JObj(map["rates" := JObj(map["INR" := JStr("0")])]))) == Success(0.0)
  {
    var j := JObj(map["rates" := JObj(map["INR" := JStr("0")])]);
    assert InrField(j) == Some(JStr("0"));
    assert Numeral.Show(0) == "0";
    Numeral.ParseShow(0);
  }

  /** A response whose rates lack INR, or hold None for it, is an error. */
  lemma UsdInrMissing(rates: map<string, Json>)
    requires "INR" !in rates || rates["INR"] == JNull
    ensures UsdInr(Ok(JObj(map["rates" := JObj(rates)]))).Failure?
  {
    var j := JObj(map["rates" := JObj(rates)]);
    assert InrField(j) == Some(JNull);
  }
}
