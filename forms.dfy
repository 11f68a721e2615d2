/**
 * The submit rule of each conversion form: validate the price or prices
 * first, then the amount, and only then compute. Each rule is a pure
 * function of the values the session holds when the form is submitted;
 * the outcome names the error message shown or carries the computed
 * values.
 */
module Forms {
  import opened Options
  import opened Units

  /** What a Gwei-to-fiat or Sats-to-fiat submission shows. */
  datatype FiatOutcome =
    | PriceInvalid                               // "Please provide a valid ... price"
    | AmountInvalid                              // "... amount must be greater than 0."
    | Fiat(crypto: real, usd: real, idr: real)   // ETH or BTC, USD, IDR

  /** What a cross (Sats/Gwei) submission shows. */
  datatype CrossOutcome =
    | PricesInvalid                              // "Please provide valid BTC and ETH prices ..."
    | CrossAmountInvalid                         // "... amount must be greater than 0."
    | ZeroPriceError                             // the `except ZeroDivisionError` message
    | Cross(usd: real, idr: real, converted: real)

  /** A session price passes validation: it is set and strictly positive. */
  predicate ValidPrice(p: Option<real>) {
    p.Some? && p.value > 0.0
  }

  /** Python's `x / y`: `None` stands for the `ZeroDivisionError` it raises. */
  function Divide(x: real, y: real): (r: Option<real>)
    ensures r.None? <==> y == 0.0
    ensures r.Some? ==> r.value * y == x
  {
    if y == 0.0 then None else Some(x / y)
  }

  /** Submitting the Gwei-to-USD/IDR form. */
  function GweiSubmit(ethPrice: Option<real>, rate: real, gwei: real): (o: FiatOutcome)
    ensures o.PriceInvalid? <==> !ValidPrice(ethPrice)
    ensures o.AmountInvalid? <==> ValidPrice(ethPrice) && gwei <= 0.0
    ensures o.Fiat? ==> ValidPrice(ethPrice) && gwei > 0.0
    ensures o.Fiat? ==> o.crypto * GweiPerEth == gwei
    ensures o.Fiat? ==> o.usd * GweiPerEth == gwei * ethPrice.value
    ensures o.Fiat? ==> o.idr == o.usd * rate
    ensures o.Fiat? && rate >= 1.0 ==> o.idr >= o.usd > 0.0
  {
    if ethPrice.None? || ethPrice.value <= 0.0 then PriceInvalid
    else if gwei <= 0.0 then AmountInvalid
    else
      var eth := GweiToEth(gwei);
      var usd := eth * ethPrice.value;
      var idr := usd * rate;
      assert usd > 0.0 by { PositiveProduct(eth, ethPrice.value); }
      assert rate >= 1.0 ==> idr >= usd by { if rate >= 1.0 { ScaleUp(usd, rate); } }
      Fiat(eth, usd, idr)
  }

  /** Submitting the Sats-to-USD/IDR form. */
  function SatsSubmit(btcPrice: Option<real>, rate: real, sats: real): (o: FiatOutcome)
    ensures o.PriceInvalid? <==> !ValidPrice(btcPrice)
    ensures o.AmountInvalid? <==> ValidPrice(btcPrice) && sats <= 0.0
    ensures o.Fiat? ==> ValidPrice(btcPrice) && sats > 0.0
    ensures o.Fiat? ==> o.crypto * SatsPerBtc == sats
    ensures o.Fiat? ==> o.usd * SatsPerBtc == sats * btcPrice.value
    ensures o.Fiat? ==> o.idr == o.usd * rate
    ensures o.Fiat? && rate >= 1.0 ==> o.idr >= o.usd > 0.0
  {
    if btcPrice.None? || btcPrice.value <= 0.0 then PriceInvalid
    else if sats <= 0.0 then AmountInvalid
    else
      var btc := SatsToBtc(sats);
      var usd := btc * btcPrice.value;
      var idr := usd * rate;
      assert usd > 0.0 by { PositiveProduct(btc, btcPrice.value); }
      assert rate >= 1.0 ==> idr >= usd by { if rate >= 1.0 { ScaleUp(usd, rate); } }
      Fiat(btc, usd, idr)
  }

  /** Submitting the cross form in the Satoshis-to-Gwei direction. */
  function SatsToGweiSubmit(btcPrice: Option<real>, ethPrice: Option<real>, rate: real, sats: real): (o: CrossOutcome)
    ensures o.PricesInvalid? <==> !(ValidPrice(btcPrice) && ValidPrice(ethPrice))
    ensures o.CrossAmountInvalid? <==> ValidPrice(btcPrice) && ValidPrice(ethPrice) && sats <= 0.0
    ensures !o.ZeroPriceError?
    ensures o.Cross? ==> ValidPrice(btcPrice) && ValidPrice(ethPrice) && sats > 0.0
    ensures o.Cross? ==> o.usd * SatsPerBtc == sats * btcPrice.value
    ensures o.Cross? ==> o.idr == o.usd * rate
    ensures o.Cross? ==> o.converted * ethPrice.value == o.usd * GweiPerEth
    ensures o.Cross? && rate >= 1.0 ==> o.idr >= o.usd > 0.0
  {
    if (btcPrice.None? || btcPrice.value <= 0.0) || (ethPrice.None? || ethPrice.value <= 0.0) then
      PricesInvalid
    else if sats <= 0.0 then CrossAmountInvalid
    else
      var btc := SatsToBtc(sats);
      var usd := btc * btcPrice.value;
      var idr := usd * rate;
      assert usd > 0.0 by { PositiveProduct(btc, btcPrice.value); }
      assert rate >= 1.0 ==> idr >= usd by { if rate >= 1.0 { ScaleUp(usd, rate); } }
      match Divide(usd, ethPrice.value)
      case None => ZeroPriceError
      case Some(eth) => Cross(usd, idr, EthToGwei(eth))
  }

  /** Submitting the cross form in the Gwei-to-Satoshis direction. */
  function GweiToSatsSubmit(btcPrice: Option<real>, ethPrice: Option<real>, rate: real, gwei: real): (o: CrossOutcome)
    ensures o.PricesInvalid? <==> !(ValidPrice(btcPrice) && ValidPrice(ethPrice))
    ensures o.CrossAmountInvalid? <==> ValidPrice(btcPrice) && ValidPrice(ethPrice) && gwei <= 0.0
    ensures !o.ZeroPriceError?
    ensures o.Cross? ==> ValidPrice(btcPrice) && ValidPrice(ethPrice) && gwei > 0.0
    ensures o.Cross? ==> o.usd * GweiPerEth == gwei * ethPrice.value
    ensures o.Cross? ==> o.idr == o.usd * rate
    ensures o.Cross? ==> o.converted * btcPrice.value == o.usd * SatsPerBtc
    ensures o.Cross? && rate >= 1.0 ==> o.idr >= o.usd > 0.0
  {
    if (btcPrice.None? || btcPrice.value <= 0.0) || (ethPrice.None? || ethPrice.value <= 0.0) then
      PricesInvalid
    else if gwei <= 0.0 then CrossAmountInvalid
    else
      var eth := GweiToEth(gwei);
      var usd := eth * ethPrice.value;
      var idr := usd * rate;
      assert usd > 0.0 by { PositiveProduct(eth, ethPrice.value); }
      assert rate >= 1.0 ==> idr >= usd by { if rate >= 1.0 { ScaleUp(usd, rate); } }
      match Divide(usd, btcPrice.value)
      case None => ZeroPriceError
      case Some(btc) => Cross(usd, idr, BtcToSats(btc))
  }

  lemma PositiveProduct(a: real, b: real)
    requires a > 0.0 && b > 0.0
    ensures a * b > 0.0
  {
  }

  lemma ScaleUp(x: real, k: real)
    requires x > 0.0 && k >= 1.0
    ensures x * k >= x
  {
  }

  /**
   * Converting Satoshis to Gwei and then that Gwei amount back to Satoshis,
   * at the same prices and rate, gives the original amount and shows the
   * same USD and IDR values on both legs.
   */
  lemma SatsGweiRoundTrip(btcPrice: Option<real>, ethPrice: Option<real>, rate: real, sats: real)
    requires SatsToGweiSubmit(btcPrice, ethPrice, rate, sats).Cross?
    ensures var there := SatsToGweiSubmit(btcPrice, ethPrice, rate, sats);
            GweiToSatsSubmit(btcPrice, ethPrice, rate, there.converted) == Cross(there.usd, there.idr, sats)
  {
    var there := SatsToGweiSubmit(btcPrice, ethPrice, rate, sats);
    var back := GweiToSatsSubmit(btcPrice, ethPrice, rate, there.converted);
    var b, e := btcPrice.value, ethPrice.value;
    assert there.converted > 0.0 by {
      PositiveProduct(sats, b);
      assert there.usd * SatsPerBtc > 0.0;
      assert there.usd > 0.0;
      PositiveProduct(there.usd, GweiPerEth);
      assert there.converted * e > 0.0;
    }
    assert back.usd == there.usd by {
      SameMultiple(back.usd, there.usd, GweiPerEth * e, there.converted * e * e);
    }
    assert back.converted == sats by {
      SameMultiple(back.converted, sats, b, back.usd * SatsPerBtc);
    }
  }

  /**
   * Converting Gwei to Satoshis and then that Satoshi amount back to Gwei,
   * at the same prices and rate, gives the original amount and shows the
   * same USD and IDR values on both legs.
   */
  lemma GweiSatsRoundTrip(btcPrice: Option<real>, ethPrice: Option<real>, rate: real, gwei: real)
    requires GweiToSatsSubmit(btcPrice, ethPrice, rate, gwei).Cross?
    ensures var there := GweiToSatsSubmit(btcPrice, ethPrice, rate, gwei);
            SatsToGweiSubmit(btcPrice, ethPrice, rate, there.converted) == Cross(there.usd, there.idr, gwei)
  {
    var there := GweiToSatsSubmit(btcPrice, ethPrice, rate, gwei);
    var back := SatsToGweiSubmit(btcPrice, ethPrice, rate, there.converted);
    var b, e := btcPrice.value, ethPrice.value;
    assert there.converted > 0.0 by {
      PositiveProduct(gwei, e);
      assert there.usd * GweiPerEth > 0.0;
      assert there.usd > 0.0;
      PositiveProduct(there.usd, SatsPerBtc);
      assert there.converted * b > 0.0;
    }
    assert back.usd == there.usd by {
      SameMultiple(back.usd, there.usd, SatsPerBtc * b, there.converted * b * b);
    }
    assert back.converted == gwei by {
      SameMultiple(back.converted, gwei, e, back.usd * GweiPerEth);
    }
  }

  /** Two values with the same non-zero multiple are equal. */
  lemma SameMultiple(x: real, y: real, k: real, v: real)
    requires k != 0.0 && x * k == v && y * k == v
    ensures x == y
  {
  }

  /**
   * The cross form agrees with the two fiat forms: the USD and IDR values it
   * shows for a Satoshi amount are those the Sats form shows, and the Gwei
   * form, given the Gwei amount it produces, shows them again.
   */
  lemma CrossAgreesWithFiatForms(btcPrice: Option<real>, ethPrice: Option<real>, rate: real, sats: real)
    requires SatsToGweiSubmit(btcPrice, ethPrice, rate, sats).Cross?
    ensures var c := SatsToGweiSubmit(btcPrice, ethPrice, rate, sats);
            var s := SatsSubmit(btcPrice, rate, sats);
            var g := GweiSubmit(ethPrice, rate, c.converted);
            s.Fiat? && s.usd == c.usd && s.idr == c.idr &&
            g.Fiat? && g.usd == c.usd && g.idr == c.idr
  {
    var c := SatsToGweiSubmit(btcPrice, ethPrice, rate, sats);
    var s := SatsSubmit(btcPrice, rate, sats);
    var e := ethPrice.value;
    assert s.usd == c.usd by {
      SameMultiple(s.usd, c.usd, SatsPerBtc, sats * btcPrice.value);
    }
    SatsGweiRoundTrip(btcPrice, ethPrice, rate, sats);
    var g := GweiSubmit(ethPrice, rate, c.converted);
    assert g.Fiat?;
    assert g.usd == c.usd by {
      SameMultiple(g.usd, c.usd, GweiPerEth, c.converted * e);
    }
  }

  /** Worked example: 100 Gwei at 2000 USD/ETH and 16200 IDR/USD. */
  lemma GweiExample()
    ensures GweiSubmit(Some(2000.0), 16200.0, 100.0) == Fiat(0.0000001, 0.0002, 3.24)
  {
  }

  /** Worked example: 100 Satoshis at 30000 USD/BTC and 16200 IDR/USD. */
  lemma SatsExample()
    ensures SatsSubmit(Some(30000.0), 16200.0, 100.0) == Fiat(0.000001, 0.03, 486.0)
  {
  }

  /** Worked example: 1000 Satoshis at 30000 USD/BTC and 2000 USD/ETH is 150000 Gwei. */
  lemma CrossExample()
    ensures SatsToGweiSubmit(Some(30000.0), Some(2000.0), 16200.0, 1000.0) == Cross(0.3, 4860.0, 150000.0)
  {
  }
}
