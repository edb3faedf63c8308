/**
 * The fetch / fallback / cache decision of app.py's `main` and the
 * `clear_cache_fn` button, over the session cache `st.session_state.cached`.
 * The three HTTP fetches are abstract outcomes given as inputs, the clock is
 * the opaque `stamp` string, and the sidebar values are plain inputs.
 */
module App {
  import opened Wrappers
  import opened Sources
  import opened Conversion

  /** `st.session_state.cached`: `{}`, or the four-key dict written after a full fetch. */
  datatype Cache =
    | Empty
    | Filled(xauUsd: real, usdInr: real, source: string, lastFetched: string)

  /** The upstream endpoints, in the order `main` may consult them. */
  datatype Endpoint = InvestingApi | YahooQuote | ExchangeRateHost

  /** The sidebar percentages that convert_and_display reads. */
  datatype Settings = Settings(importDutyPct: real, gstPct: real)

  /** What one run of `main` shows. */
  datatype Outcome =
    | Prompt                                        // "Press *Fetch now* ..."
    | UsedCache(entry: Cache, table: seq<TaxRow>)   // cached rates and their conversion
    | Fetched(entry: Cache, table: seq<TaxRow>)     // fresh rates and their conversion
    | HttpAborted(detail: string, details: seq<string>)
    | Failed(error: string, details: seq<string>)

  /** One run: what is shown, the cache afterwards, and the endpoints requested, in order. */
  datatype Run = Run(outcome: Outcome, cache: Cache, consulted: seq<Endpoint>)

  const AllFailedMsg := "All price fetch attempts failed."

  function InvestingHttpDiag(detail: string): string { "Investing.com HTTP error: " + detail }
  function InvestingDiag(message: string): string { "Investing.com fetch failed: " + message }
  function YahooDiag(message: string): string { "Yahoo fallback failed: " + message }

  /** `cached.get("last_fetched")` */
  function LastFetched(c: Cache): Option<string> {
    match c
    case Empty => None
    case Filled(_, _, _, stamp) => Some(stamp)
  }

  /** The conversion table for a filled cache. */
  function Table(c: Cache, s: Settings): seq<TaxRow>
    requires c.Filled?
  {
    TaxTable(Rates(c.xauUsd, c.usdInr), s.importDutyPct, s.gstPct)
  }

  /** The spot price `main` obtains: Investing.com, or Yahoo after any failure of Investing.com but an HTTP error. */
  function PriceOf(investing: Fetch, yahoo: Fetch): Option<Quote> {
    match Investing(investing)
    case Success(q) => Some(q)
    case Failure(e) =>
      if e.HttpErr? then None
      else match Yahoo(yahoo)
           case Success(q) => Some(q)
           case Failure(_) => None
  }

  /** Whether `main` goes on to a fresh fetch: a press, or a cache whose stamp is present but empty. */
  predicate Fetches(c: Cache, fetchNow: bool) {
    fetchNow || (c.Filled? && c.lastFetched == "")
  }

  /** Once the spot price is known: fetch the rate, and on success replace the cache and convert. */
  function AfterPrice(c: Cache, q: Quote, details: seq<string>, consulted: seq<Endpoint>,
                      fx: Fetch, stamp: string, s: Settings): Run
  {
    match UsdInr(fx)
    case Failure(e) => Run(Failed(e.Text(), details), c, consulted + [ExchangeRateHost])
    case Success(inr) =>
      var entry := Filled(q.xau, inr, q.source, stamp);
      Run(Fetched(entry, Table(entry, s)), entry, consulted + [ExchangeRateHost])
  }

  /** The fresh-fetch part of `main`. */
  function FreshFetch(c: Cache, investing: Fetch, yahoo: Fetch, fx: Fetch, stamp: string, s: Settings): Run {
    match Investing(investing)
    case Success(q) => AfterPrice(c, q, [], [InvestingApi], fx, stamp, s)
    case Failure(HttpErr(d)) => Run(HttpAborted(d, [InvestingHttpDiag(d)]), c, [InvestingApi])
    case Failure(Runtime(m)) =>
      var details := [InvestingDiag(m)];
      match Yahoo(yahoo)
      case Success(q) => AfterPrice(c, q, details, [InvestingApi, YahooQuote], fx, stamp, s)
      case Failure(e) =>
        Run(Failed(AllFailedMsg, [InvestingDiag(m), YahooDiag(e.Text())]), c, [InvestingApi, YahooQuote])
  }

  /** One run of `main` from cache `c`. */
  function MainSpec(c: Cache, fetchNow: bool, investing: Fetch, yahoo: Fetch, fx: Fetch,
                    stamp: string, s: Settings): Run
  {
    if !fetchNow && LastFetched(c).None? then Run(Prompt, c, [])
    else if !fetchNow && LastFetched(c).value != "" then Run(UsedCache(c, Table(c, s)), c, [])
    else FreshFetch(c, investing, yahoo, fx, stamp, s)
  }

  /** The Streamlit session: its cache survives from one rerun of the script to the next. */
  class Session {
    var cached: Cache

    /** `if "cached" not in st.session_state: st.session_state.cached = {}` */
    constructor ()
      ensures cached == Empty
    {
      cached := Empty;
    }

    /** clear_cache_fn */
    method ClearCacheFn()
      modifies this
      ensures cached == Empty
    {
      cached := Empty;
    }

    /** main: one run of the page's entry point */
    method RunMain(fetchNow: bool, investing: Fetch, yahoo: Fetch, fx: Fetch, stamp: string, s: Settings)
      returns (outcome: Outcome, consulted: seq<Endpoint>)
      modifies this
      ensures Run(outcome, cached, consulted) == MainSpec(old(cached), fetchNow, investing, yahoo, fx, stamp, s)
    {
      consulted := [];
      var last := LastFetched(cached);
      if !fetchNow && last.None? {
        outcome := Prompt;
        return;
      }
      if !fetchNow && last.value != "" {
        var table := ConvertAndDisplay(cached.xauUsd, cached.usdInr, s.importDutyPct, s.gstPct);
        outcome := UsedCache(cached, table);
        return;
      }

      assert MainSpec(cached, fetchNow, investing, yahoo, fx, stamp, s) == FreshFetch(cached, investing, yahoo, fx, stamp, s);
      var errorMsgs: seq<string> := [];
      var quote: Option<Quote> := None;
      consulted := consulted + [InvestingApi];
      var fromInvesting := Investing(investing);
      match fromInvesting {
        case Success(q) =>
          quote := Some(q);
        case Failure(HttpErr(d)) =>
          errorMsgs := errorMsgs + [InvestingHttpDiag(d)];
          outcome := HttpAborted(d, errorMsgs);
          assert consulted == [InvestingApi] && errorMsgs == [InvestingHttpDiag(d)];
          assert FreshFetch(cached, investing, yahoo, fx, stamp, s) == Run(outcome, cached, consulted);
          return;
        case Failure(Runtime(m)) =>
          errorMsgs := errorMsgs + [InvestingDiag(m)];
      }

      if quote.None? {
        consulted := consulted + [YahooQuote];
        var fromYahoo := Yahoo(yahoo);
        match fromYahoo {
          case Success(q) =>
            quote := Some(q);
          case Failure(e) =>
            errorMsgs := errorMsgs + [YahooDiag(e.Text())];
            outcome := Failed(AllFailedMsg, errorMsgs);
            assert consulted == [InvestingApi, YahooQuote];
            assert errorMsgs == [InvestingDiag(fromInvesting.error.message), YahooDiag(e.Text())];
            assert FreshFetch(cached, investing, yahoo, fx, stamp, s) == Run(outcome, cached, consulted);
            return;
        }
      }

      assert fromInvesting.Success? ==>
        errorMsgs == [] && consulted == [InvestingApi] && quote == Some(fromInvesting.value);
      assert fromInvesting.Failure? ==>
        && errorMsgs == [InvestingDiag(fromInvesting.error.message)]
        && consulted == [InvestingApi, YahooQuote]
        && quote == Some(Yahoo(yahoo).value);
      assert FreshFetch(cached, investing, yahoo, fx, stamp, s)
             == AfterPrice(cached, quote.value, errorMsgs, consulted, fx, stamp, s);
      consulted := consulted + [ExchangeRateHost];
      var rate := UsdInr(fx);
      if rate.Failure? {
        outcome := Failed(rate.error.Text(), errorMsgs);
        return;
      }

      cached := Filled(quote.value.xau, rate.value, quote.value.source, stamp);
      var table := ConvertAndDisplay(cached.xauUsd, cached.usdInr, s.importDutyPct, s.gstPct);
      outcome := Fetched(cached, table);
    }

    /** One rerun of the script: the Clear cache button is handled before `main` runs. */
    method Rerun(fetchNow: bool, clearCache: bool, investing: Fetch, yahoo: Fetch, fx: Fetch,
                 stamp: string, s: Settings)
      returns (outcome: Outcome, consulted: seq<Endpoint>)
      modifies this
      ensures Run(outcome, cached, consulted)
              == MainSpec(if clearCache then Empty else old(cached), fetchNow, investing, yahoo, fx, stamp, s)
    {
      if clearCache {
        ClearCacheFn();
      }
      outcome, consulted := RunMain(fetchNow, investing, yahoo, fx, stamp, s);
    }
  }

  // ---------------------------------------------------------------------
  // properties of one run

  /** Without a press and with an empty cache nothing is fetched, cached or converted. */
  lemma IdleWithoutCache(fetchNow: bool, investing: Fetch, yahoo: Fetch, fx: Fetch, stamp: string, s: Settings)
    requires !fetchNow
    ensures MainSpec(Empty, fetchNow, investing, yahoo, fx, stamp, s) == Run(Prompt, Empty, [])
  {
  }

  /** Without a press, a cache holding a stamp is reused as is and no endpoint is requested. */
  lemma ReusesCache(c: Cache, fetchNow: bool, investing: Fetch, yahoo: Fetch, fx: Fetch, stamp: string, s: Settings)
    requires !fetchNow && c.Filled? && c.lastFetched != ""
    ensures MainSpec(c, fetchNow, investing, yahoo, fx, stamp, s) == Run(UsedCache(c, Table(c, s)), c, [])
  {
  }

  /** An HTTP error from Investing.com aborts the whole fetch: Yahoo and the rate are never requested. */
  lemma HttpErrorAborts(c: Cache, fetchNow: bool, detail: string, yahoo: Fetch, fx: Fetch, stamp: string, s: Settings)
    requires Fetches(c, fetchNow)
    ensures MainSpec(c, fetchNow, HttpError(detail), yahoo, fx, stamp, s)
            == Run(HttpAborted(detail, [InvestingHttpDiag(detail)]), c, [InvestingApi])
  {
  }

  /** Any other Investing.com failure falls through to Yahoo, with its diagnostic recorded first. */
  lemma OtherFailureFallsBack(c: Cache, fetchNow: bool, investing: Fetch, yahoo: Fetch, fx: Fetch, stamp: string, s: Settings)
    requires Fetches(c, fetchNow)
    requires !investing.HttpError? && Investing(investing).Failure?
    ensures var run := MainSpec(c, fetchNow, investing, yahoo, fx, stamp, s);
      && |run.consulted| >= 2 && run.consulted[..2] == [InvestingApi, YahooQuote]
      && (run.outcome.Failed? ==> |run.outcome.details| >= 1
                                  && run.outcome.details[0] == InvestingDiag(InvestingFormatMsg))
  {
  }

  /** When Yahoo fails too, the run fails with both diagnostics in order and the rate is never requested. */
  lemma AllSourcesFail(c: Cache, fetchNow: bool, investing: Fetch, yahoo: Fetch, fx: Fetch, stamp: string, s: Settings)
    requires Fetches(c, fetchNow)
    requires !investing.HttpError? && Investing(investing).Failure? && Yahoo(yahoo).Failure?
    ensures MainSpec(c, fetchNow, investing, yahoo, fx, stamp, s)
            == Run(Failed(AllFailedMsg, [InvestingDiag(InvestingFormatMsg), YahooDiag(YahooMsg)]),
                   c, [InvestingApi, YahooQuote])
  {
  }

  /** A successful Investing.com fetch means Yahoo is never requested and no diagnostic is kept. */
  lemma InvestingSuccessSkipsYahoo(c: Cache, fetchNow: bool, investing: Fetch, yahoo: Fetch, fx: Fetch, stamp: string, s: Settings)
    requires Fetches(c, fetchNow) && Investing(investing).Success?
    ensures var run := MainSpec(c, fetchNow, investing, yahoo, fx, stamp, s);
      && run.consulted == [InvestingApi, ExchangeRateHost]
      && (run.outcome.Failed? ==> run.outcome.details == [])
  {
  }

  /**
   * The cache is replaced, as a whole, exactly when a fetch happens and both
   * the spot price and the rate are obtained; every other run leaves it as it was.
   */
  lemma CacheReplacedOnlyOnFullSuccess(c: Cache, fetchNow: bool, investing: Fetch, yahoo: Fetch, fx: Fetch,
                                       stamp: string, s: Settings)
    ensures var run := MainSpec(c, fetchNow, investing, yahoo, fx, stamp, s);
      && (run.outcome.Fetched? <==>
            Fetches(c, fetchNow) && PriceOf(investing, yahoo).Some? && UsdInr(fx).Success?)
      && run.cache == (if run.outcome.Fetched?
                       then Filled(PriceOf(investing, yahoo).value.xau, UsdInr(fx).value,
                                   PriceOf(investing, yahoo).value.source, stamp)
                       else c)
  {
    if Fetches(c, fetchNow) {
      assert MainSpec(c, fetchNow, investing, yahoo, fx, stamp, s) == FreshFetch(c, investing, yahoo, fx, stamp, s);
    }
  }

  /** Every endpoint is requested at most once, rates only after a price, in a fixed order. */
  lemma ConsultedOrder(c: Cache, fetchNow: bool, investing: Fetch, yahoo: Fetch, fx: Fetch, stamp: string, s: Settings)
    ensures var run := MainSpec(c, fetchNow, investing, yahoo, fx, stamp, s);
      run.consulted in {[], [InvestingApi], [InvestingApi, YahooQuote],
                        [InvestingApi, ExchangeRateHost], [InvestingApi, YahooQuote, ExchangeRateHost]}
    ensures var run := MainSpec(c, fetchNow, investing, yahoo, fx, stamp, s);
      (run.consulted == [] <==> !Fetches(c, fetchNow))
      && (ExchangeRateHost in run.consulted <==> Fetches(c, fetchNow) && PriceOf(investing, yahoo).Some?)
  {
    if Fetches(c, fetchNow) {
      assert MainSpec(c, fetchNow, investing, yahoo, fx, stamp, s) == FreshFetch(c, investing, yahoo, fx, stamp, s);
      match Investing(investing)
      case Success(q) =>
        assert [InvestingApi] + [ExchangeRateHost] == [InvestingApi, ExchangeRateHost];
      case Failure(e) =>
        if !e.HttpErr? && Yahoo(yahoo).Success? {
          assert [InvestingApi, YahooQuote] + [ExchangeRateHost] == [InvestingApi, YahooQuote, ExchangeRateHost];
        }
    }
  }

  /**
   * The two guards of `main` differ: without a press, a filled cache whose
   * stamp is the empty string is neither prompted for nor reused, and a
   * fresh fetch runs.  Stamps written by `main` come from strftime and are
   * never empty, so this stays unreachable in practice.
   */
  lemma EmptyStampRefetches(c: Cache, investing: Fetch, yahoo: Fetch, fx: Fetch, stamp: string, s: Settings)
    requires c.Filled? && c.lastFetched == ""
    ensures MainSpec(c, false, investing, yahoo, fx, stamp, s) == FreshFetch(c, investing, yahoo, fx, stamp, s)
    ensures InvestingApi in MainSpec(c, false, investing, yahoo, fx, stamp, s).consulted
  {
  }
}
