/**
 * The arithmetic of `convert_and_display`: troy ounce to 10 g, the karat
 * ratios, import duty then GST, and the guard cases of its rounding helper
 * `r`.  Exact real arithmetic stands for Python floats.
 */
module Conversion {

  const GramsPerTroyOunce: real := 31.1034768

  /** The three purities the table shows, in the order the `rates` dict is filled. */
  datatype Karat = K24 | K22 | K18 {
    /** Parts of pure gold in 24. */
    function Parts(): nat {
      match this
      case K24 => 24
      case K22 => 22
      case K18 => 18
    }
  }

  /** One entry of the `rates` dict: INR per 10 g before tax. */
  datatype Rate = Rate(karat: Karat, value: real)

  /** One entry of the `taxed` dict. */
  datatype TaxRow = TaxRow(karat: Karat, preTax: real, afterImport: real, afterGst: real)

  /** INR per 10 g of pure gold, for a spot price in USD per troy ounce and a USD→INR rate. */
  function PureInrPerTenGrams(xauUsd: real, usdInr: real): real {
    var usdPerGram := xauUsd / GramsPerTroyOunce;
    var usdPerTenGrams := usdPerGram * 10.0;
    usdPerTenGrams * usdInr
  }

  /** The `rates` dict: each purity is its share in 24 of the pure-gold price. */
  function Rates(xauUsd: real, usdInr: real): (rs: seq<Rate>)
    ensures |rs| == 3 && rs[0].karat == K24 && rs[1].karat == K22 && rs[2].karat == K18
    ensures forall i :: 0 <= i < |rs| ==>
      rs[i].value == PureInrPerTenGrams(xauUsd, usdInr) * (rs[i].karat.Parts() as real / 24.0)
  {
    var inrPerTenGrams := PureInrPerTenGrams(xauUsd, usdInr);
    [Rate(K24, inrPerTenGrams), Rate(K22, inrPerTenGrams * (22.0 / 24.0)), Rate(K18, inrPerTenGrams * (18.0 / 24.0))]
  }

  /** One pass of the tax loop: import duty on the pre-tax value, then GST on the result. */
  function Tax(rate: Rate, importDutyPct: real, gstPct: real): TaxRow {
    var afterImport := rate.value * (1.0 + importDutyPct / 100.0);
    TaxRow(rate.karat, rate.value, afterImport, afterImport * (1.0 + gstPct / 100.0))
  }

  /** The `taxed` dict: every rate taxed, in the same order. */
  function TaxTable(rates: seq<Rate>, importDutyPct: real, gstPct: real): (t: seq<TaxRow>)
    ensures |t| == |rates|
    ensures forall i :: 0 <= i < |rates| ==> t[i] == Tax(rates[i], importDutyPct, gstPct)
  {
    if rates == [] then []
    else [Tax(rates[0], importDutyPct, gstPct)] + TaxTable(rates[1..], importDutyPct, gstPct)
  }

  /** The computation of convert_and_display: build `rates`, then fill `taxed` in a loop. */
  method ConvertAndDisplay(xauUsd: real, usdInr: real, importDutyPct: real, gstPct: real)
    returns (taxed: seq<TaxRow>)
    ensures taxed == TaxTable(Rates(xauUsd, usdInr), importDutyPct, gstPct)
    ensures |taxed| == 3
    ensures forall i :: 0 <= i < |taxed| ==>
      && taxed[i].karat == Rates(xauUsd, usdInr)[i].karat
      && taxed[i].preTax == Rates(xauUsd, usdInr)[i].value
      && taxed[i].afterGst == taxed[i].preTax * (1.0 + importDutyPct / 100.0) * (1.0 + gstPct / 100.0)
  {
    var rates := Rates(xauUsd, usdInr);
    taxed := [];
    for k := 0 to |rates|
      invariant |taxed| == k
      invariant forall i :: 0 <= i < k ==> taxed[i] == Tax(rates[i], importDutyPct, gstPct)
    {
      var v := rates[k].value;
      var afterImport := v * (1.0 + importDutyPct / 100.0);
      var afterGst := afterImport * (1.0 + gstPct / 100.0);
      taxed := taxed + [TaxRow(rates[k].karat, v, afterImport, afterGst)];
    }
    assert taxed == TaxTable(rates, importDutyPct, gstPct);
  }

  /** The 22K and 18K rates are exactly 22/24 and 18/24 of the 24K rate, which is xau / 31.1034768 * 10 * usd_inr. */
  lemma KaratRatios(xauUsd: real, usdInr: real)
    ensures Rates(xauUsd, usdInr)[0].value == xauUsd / 31.1034768 * 10.0 * usdInr
    ensures Rates(xauUsd, usdInr)[1].value == Rates(xauUsd, usdInr)[0].value * 22.0 / 24.0
    ensures Rates(xauUsd, usdInr)[2].value == Rates(xauUsd, usdInr)[0].value * 18.0 / 24.0
  {
  }

  /** Lower purity never costs more, for a non-negative price and rate. */
  lemma KaratOrder(xauUsd: real, usdInr: real)
    requires xauUsd >= 0.0 && usdInr >= 0.0
    ensures 0.0 <= Rates(xauUsd, usdInr)[2].value <= Rates(xauUsd, usdInr)[1].value <= Rates(xauUsd, usdInr)[0].value
  {
  }

  /** The taxes compound: after_gst = pre_tax * (1 + duty/100) * (1 + gst/100), and pre_tax is the untaxed rate. */
  lemma TaxCompounds(rate: Rate, importDutyPct: real, gstPct: real)
    ensures Tax(rate, importDutyPct, gstPct).preTax == rate.value
    ensures Tax(rate, importDutyPct, gstPct).afterGst
            == rate.value * (1.0 + importDutyPct / 100.0) * (1.0 + gstPct / 100.0)
  {
  }

  /** With the sidebar's non-negative percentages and a non-negative price, each tax step can only raise the figure. */
  lemma TaxNeverLowers(rate: Rate, importDutyPct: real, gstPct: real)
    requires importDutyPct >= 0.0 && gstPct >= 0.0 && rate.value >= 0.0
    ensures Tax(rate, importDutyPct, gstPct).preTax <= Tax(rate, importDutyPct, gstPct).afterImport
    ensures Tax(rate, importDutyPct, gstPct).afterImport <= Tax(rate, importDutyPct, gstPct).afterGst
  {
  }

  /** A worked figure: 2000 USD/oz at 83 INR/USD with 10% duty and 3% GST gives about 60468.48 INR per 10 g of 24K. */
  lemma WorkedFigure()
    ensures 60468.48 < TaxTable(Rates(2000.0, 83.0), 10.0, 3.0)[0].afterGst < 60468.49
  {
  }

  // ---------------------------------------------------------------------
  // the rounding helper r

  /** A Python float: a finite value, an infinity or NaN. */
  datatype PyFloat = Finite(value: real) | Infinity(negative: bool) | NaN

  /** What `r` shows: its argument untouched, or the argument rounded to a multiple of the step (not modelled further). */
  datatype Shown = AsIs(x: PyFloat) | RoundedToStep(value: real, step: real)

  /** The guards of `r`: a non-finite value or a non-positive step is returned as is. */
  function R(x: PyFloat, roundTo: real): (s: Shown)
    ensures s.AsIs? <==> !x.Finite? || roundTo <= 0.0
    ensures s.AsIs? ==> s.x == x
    ensures s.RoundedToStep? ==> x == Finite(s.value) && s.step == roundTo && s.step > 0.0
  {
    if !x.Finite? then AsIs(x)
    else if roundTo <= 0.0 then AsIs(x)
    else RoundedToStep(x.value, roundTo)
  }
}
