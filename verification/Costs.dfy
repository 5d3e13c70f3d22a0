/** What a simulated fill costs: the fee schedule and the slippage model. */
module Costs {
  import opened Prelude

  datatype AssetClass = CRYPTO | EQUITY | ETF | COMMODITY | FUTURE | PREDICTION

  datatype Side = BUY | SELL | BUY_YES | SELL_YES | BUY_NO | SELL_NO

  predicate IsBuy(side: Side) { side == BUY || side == BUY_YES || side == BUY_NO }

  datatype Liquidity = Maker | Taker

  /** One venue's own entries, each of which may be absent. */
  datatype VenueFees = VenueFees(makerBps: Option<real>, takerBps: Option<real>, rate: Option<real>)

  datatype FeeSchedule = FeeSchedule(
    venues: map<string, VenueFees>, byAsset: map<AssetClass, real>,
    rate: Option<real>, makerBps: real, takerBps: real)
  {
    /** The venue's entry for the liquidity first, then its own rate, then the asset class,
        then the explicit default, then the schedule's basis points. */
    function Rate(asset: AssetClass, liquidity: Liquidity, venue: Option<string>): real {
      var v := if venue.Some? && venue.value in venues then venues[venue.value] else VenueFees(None, None, None);
      var bps := if liquidity == Maker then v.makerBps else v.takerBps;
      if bps.Some? then bps.value / 10000.0
      else if v.rate.Some? then v.rate.value
      else if asset in byAsset then byAsset[asset]
      else if rate.Some? then rate.value
      else if liquidity == Maker then makerBps / 10000.0
      else takerBps / 10000.0
    }

    function Fee(notional: real, asset: AssetClass, liquidity: Liquidity, venue: Option<string>): real {
      Abs(notional) * Rate(asset, liquidity, venue)
    }

    /** No rate that can be looked up exceeds 100 %; a negative one is a rebate. */
    ghost predicate Proper() {
      forall asset, liquidity, venue :: Rate(asset, liquidity, venue) <= 1.0
    }
  }

  datatype SlippageKind = FixedBps | Percentage | VolatilityAdjusted | VolumeAdjusted

  datatype SlippageModel = SlippageModel(
    enabled: bool, kind: SlippageKind, defaultBps: real, maxBps: real,
    percentage: real, volatilityMultiplier: real, volumeImpact: real)
  {
    /** Basis points for a trade of `quantity` units, with no volatility or daily volume given. */
    function Bps(quantity: real): real {
      if !enabled then 0.0
      else
        var bps :=
          match kind
          case Percentage => percentage * 10000.0
          case VolatilityAdjusted => defaultBps * (1.0 + 0.01 * volatilityMultiplier)
          case VolumeAdjusted => defaultBps * (1.0 + quantity * volumeImpact)
          case FixedBps => defaultBps;
        Min(Max(bps, 0.0), maxBps)
    }

    function FillPrice(side: Side, price: real, prediction: bool, quantity: real): real {
      var slip := price * (Bps(quantity) / 10000.0);
      var fill := if IsBuy(side) then price + slip else price - slip;
      if prediction then Min(1.0, Max(0.0, fill)) else fill
    }
  }

  /** On a market price that is not negative, with a cap of at most 100 %, slippage never turns a
      selling price negative; and with a cap that is not negative it never helps the trader outside
      a prediction market. */
  lemma SlippageIsAdverse(m: SlippageModel, side: Side, price: real, prediction: bool, quantity: real)
    requires 0.0 <= price && m.maxBps <= 10000.0
    ensures var fill := m.FillPrice(side, price, prediction, quantity);
            && (!IsBuy(side) || 0.0 <= m.maxBps ==> 0.0 <= fill)
            && (!prediction && 0.0 <= m.maxBps ==> if IsBuy(side) then price <= fill else fill <= price)
  {
    var share := m.Bps(quantity) / 10000.0;
    if 0.0 <= share {
      NonNegativeProduct(price, share);
    }
    NonNegativeProduct(price, 1.0 - share);
    assert price * (1.0 - share) == price - price * share;
  }

  /** Which rate applies: a venue's own basis points for the liquidity come before its own rate, that
      before the rate of the asset class, that before the default rate, and the schedule's basis points
      for the liquidity come last. */
  lemma RatePrecedence(f: FeeSchedule, asset: AssetClass, liquidity: Liquidity, venue: string)
    ensures var r, known := f.Rate(asset, liquidity, Some(venue)), venue in f.venues;
            var own := known && liquidity == Maker && f.venues[venue].makerBps.Some?;
            var taken := known && liquidity == Taker && f.venues[venue].takerBps.Some?;
            var flat := known && f.venues[venue].rate.Some?;
            && (own ==> r * 10000.0 == f.venues[venue].makerBps.value)
            && (taken ==> r * 10000.0 == f.venues[venue].takerBps.value)
            && (!own && !taken && flat ==> r == f.venues[venue].rate.value)
            && (!own && !taken && !flat ==> r == f.Rate(asset, liquidity, None))
    ensures var r := f.Rate(asset, liquidity, None);
            && (asset in f.byAsset ==> r == f.byAsset[asset])
            && (asset !in f.byAsset && f.rate.Some? ==> r == f.rate.value)
            && (asset !in f.byAsset && f.rate.None? && liquidity == Maker ==> r * 10000.0 == f.makerBps)
            && (asset !in f.byAsset && f.rate.None? && liquidity == Taker ==> r * 10000.0 == f.takerBps)
  {
  }

  /** The basis points of a slippage model lie between nothing and its cap, never above what its kind
      asks for; a model that is off has none. */
  lemma SlippageIsCapped(m: SlippageModel, quantity: real)
    ensures var bps := m.Bps(quantity);
            var asked := match m.kind
                         case FixedBps => m.defaultBps
                         case Percentage => 10000.0 * m.percentage
                         case VolatilityAdjusted => m.defaultBps + m.defaultBps * 0.01 * m.volatilityMultiplier
                         case VolumeAdjusted => m.defaultBps + m.defaultBps * quantity * m.volumeImpact;
            && (!m.enabled ==> bps == 0.0)
            && (m.enabled && 0.0 <= asked <= m.maxBps ==> bps == asked)
            && (m.enabled && asked < 0.0 <= m.maxBps ==> bps == 0.0)
            && (m.enabled && m.maxBps <= asked && 0.0 <= asked ==> bps == m.maxBps)
  {
    var x, y := m.defaultBps, quantity * m.volumeImpact;
    assert x * (1.0 + y) == x + x * y;
    assert x * y == x * quantity * m.volumeImpact;
    assert x * (1.0 + 0.01 * m.volatilityMultiplier) == x + x * 0.01 * m.volatilityMultiplier;
  }
}
