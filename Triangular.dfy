/** The triangular-arbitrage evaluator that both dashboard components share
    (`calculateArbitrage` in components/ArbitrageBot.tsx and
    `calculateTriangularArbitrage` in components/arbitragebot.tsx).
    The two copies differ only in how the gas estimate is formed and in the
    sanity ceiling on the net profit, so both are parameters here. */
module Triangular {
  import opened Wrappers

  /** Every cycle starts from this many units of the third token. */
  const StartingAmount: real := 1000.0

  /** A quote for one pair, as a price fetcher returns it. */
  datatype TokenPrice = TokenPrice(
    symbol: string,
    price: real,
    liquidity: Option<real>,
    volume24h: Option<real>,
    source: string)

  datatype LegLiquidity = LegLiquidity(pair1: real, pair2: real, pair3: real)

  datatype PriceData = PriceData(token1Price: real, token2Price: real, crossRate: real, inefficiency: real)

  /** One evaluated triangle; the id and timestamp of the dashboard's record are left out. */
  datatype Opportunity = Opportunity(
    exchange: string,
    pairs: string,
    profit: real,
    route: seq<string>,
    liquidity: LegLiquidity,
    fees: real,
    viable: bool,
    priceData: PriceData,
    gasEstimate: real)

  /** The two viability cutoffs of the dashboard settings. */
  datatype Thresholds = Thresholds(minProfitThreshold: real, minLiquidity: real)

  function Abs(x: real): real { if x < 0.0 then -x else x }

  /** `Math.max` of two numbers. */
  function Max(a: real, b: real): real { if a >= b then a else b }

  /** `Math.min` of three numbers. */
  function Min3(a: real, b: real, c: real): real
  {
    if a <= b && a <= c then a else if b <= c then b else c
  }

  /** A quote's liquidity, or 0 when it has none (`liquidity || 0`). */
  function LiquidityOrZero(q: TokenPrice): real
  {
    if q.liquidity.Some? then q.liquidity.value else 0.0
  }

  predicate PricedPositively(q: Option<TokenPrice>)
  {
    q.Some? ==> q.value.price > 0.0
  }

  /** What is left of an amount after one leg's fee, `1 - fee / 100`. */
  function FeeFactor(fee: real): real { 1.0 - fee / 100.0 }

  /** Route 1: token 3 to token 1 (divide by the 1/3 rate), to token 2
      (multiply by the 1/2 rate), back to token 3 (multiply by the 2/3 rate),
      with the fee taken after every leg. */
  function Route1Final(p13: real, p23: real, p12: real, fee: real): real
    requires p13 > 0.0
  {
    var step1 := StartingAmount / p13 * FeeFactor(fee);
    var step2 := step1 * p12 * FeeFactor(fee);
    step2 * p23 * FeeFactor(fee)
  }

  /** Route 2, the mirror cycle: token 3 to token 2, to token 1, back to token 3. */
  function Route2Final(p13: real, p23: real, p12: real, fee: real): real
    requires p23 > 0.0 && p12 > 0.0
  {
    var step1 := StartingAmount / p23 * FeeFactor(fee);
    var step2 := step1 / p12 * FeeFactor(fee);
    step2 * p13 * FeeFactor(fee)
  }

  function ProfitPercent(final: real): real
  {
    (final - StartingAmount) / StartingAmount * 100.0
  }

  /** How far the implied cross rate p13/p23 is from the quoted p12, in percent
      of p12; 0 when p12 is not positive. */
  function CrossRateInefficiency(p13: real, p23: real, p12: real): (r: real)
    requires p23 != 0.0
    ensures r >= 0.0
    ensures p12 <= 0.0 ==> r == 0.0
    ensures p12 > 0.0 ==> (r == 0.0 <==> p13 == p12 * p23)
  {
    var implied := p13 / p23;
    if p12 > 0.0 then
      assert implied == p12 <==> p13 == p12 * p23;
      Abs(implied - p12) / p12 * 100.0
    else 0.0
  }

  /** The gas estimate as a percentage of the starting amount. */
  function GasImpactPercent(totalGas: real): real
  {
    totalGas / StartingAmount * 100.0
  }

  /** The better of the two cycles' profits, `Math.max(profitPercent1, profitPercent2)`. */
  function BestProfit(p13: real, p23: real, p12: real, fee: real): real
    requires p13 > 0.0 && p23 > 0.0 && p12 > 0.0
  {
    Max(ProfitPercent(Route1Final(p13, p23, p12, fee)), ProfitPercent(Route2Final(p13, p23, p12, fee)))
  }

  /** Route 1 is reported only when it is strictly better; a tie goes to route 2. */
  predicate Route1Wins(p13: real, p23: real, p12: real, fee: real)
    requires p13 > 0.0 && p23 > 0.0 && p12 > 0.0
  {
    ProfitPercent(Route1Final(p13, p23, p12, fee)) > ProfitPercent(Route2Final(p13, p23, p12, fee))
  }

  /** Every intermediate figure of one evaluation. */
  datatype Evaluation = Evaluation(
    profitPercent1: real,
    profitPercent2: real,
    bestProfitPercent: real,
    route1Chosen: bool,
    minLiquidity: real,
    inefficiencyPercent: real,
    netProfitPercent: real,
    viable: bool)

  /** The arithmetic core of one evaluation, parameterised by the per-leg fee,
      the total gas estimate and the sanity ceiling of the component. */
  function Evaluate(
    p13: real, p23: real, p12: real,
    liq13: real, liq23: real, liq12: real,
    fee: real, totalGas: real, ceiling: real, th: Thresholds): (e: Evaluation)
    requires p13 > 0.0 && p23 > 0.0 && p12 > 0.0
    ensures e.profitPercent1 == ProfitPercent(Route1Final(p13, p23, p12, fee))
    ensures e.profitPercent2 == ProfitPercent(Route2Final(p13, p23, p12, fee))
    ensures e.bestProfitPercent == BestProfit(p13, p23, p12, fee)
    ensures e.route1Chosen == Route1Wins(p13, p23, p12, fee)
    ensures e.inefficiencyPercent == CrossRateInefficiency(p13, p23, p12)
    ensures e.bestProfitPercent >= e.profitPercent1 && e.bestProfitPercent >= e.profitPercent2
    ensures e.route1Chosen <==> e.profitPercent1 > e.profitPercent2
    ensures e.bestProfitPercent == (if e.route1Chosen then e.profitPercent1 else e.profitPercent2)
    ensures e.netProfitPercent == e.bestProfitPercent - totalGas / 10.0
    ensures totalGas >= 0.0 ==> e.netProfitPercent <= e.bestProfitPercent
    ensures e.minLiquidity <= liq13 && e.minLiquidity <= liq23 && e.minLiquidity <= liq12
    ensures e.minLiquidity == liq13 || e.minLiquidity == liq23 || e.minLiquidity == liq12
    ensures e.inefficiencyPercent >= 0.0
    ensures e.viable <==> e.netProfitPercent > th.minProfitThreshold
                          && e.minLiquidity > th.minLiquidity
                          && Abs(e.netProfitPercent) < ceiling
  {
    var profitPercent1 := ProfitPercent(Route1Final(p13, p23, p12, fee));
    var profitPercent2 := ProfitPercent(Route2Final(p13, p23, p12, fee));
    var best := Max(profitPercent1, profitPercent2);
    var minLiquidity := Min3(liq13, liq23, liq12);
    var net := best - GasImpactPercent(totalGas);
    Evaluation(
      profitPercent1, profitPercent2, best, profitPercent1 > profitPercent2,
      minLiquidity, CrossRateInefficiency(p13, p23, p12), net,
      net > th.minProfitThreshold && minLiquidity > th.minLiquidity && Abs(net) < ceiling)
  }

  function PairsLabel(pair1: string, pair2: string, pair3: string): string
  {
    pair1 + "-" + pair2 + "-" + pair3
  }

  /** The token path of the chosen cycle, from token 3 back to token 3. */
  function RouteTokens(route1Chosen: bool, pair1: string, pair2: string, pair3: string): seq<string>
  {
    if route1Chosen then [pair3, pair1, pair2, pair3] else [pair3, pair2, pair1, pair3]
  }

  /** The figures of a record are those of an evaluation of its own price
      data: the net profit is the better cycle's profit less one tenth of the
      gas estimate, the route is the strictly better cycle's (route 2 on a
      tie), and the inefficiency is the cross-rate gap. */
  predicate EvaluatedFromPriceData(o: Opportunity, pair1: string, pair2: string, pair3: string, fee: real)
  {
    var p13, p23, p12 := o.priceData.token1Price, o.priceData.token2Price, o.priceData.crossRate;
    && p13 > 0.0 && p23 > 0.0 && p12 > 0.0
    && o.profit == BestProfit(p13, p23, p12, fee) - o.gasEstimate / 10.0
    && o.route == RouteTokens(Route1Wins(p13, p23, p12, fee), pair1, pair2, pair3)
    && o.priceData.inefficiency == CrossRateInefficiency(p13, p23, p12)
  }

  /** What a record's figures imply: the route starts and ends at token 3 and
      visits the other two tokens once each, the inefficiency is not
      negative, and a non-negative gas estimate only lowers the profit. */
  lemma EvaluatedFigureBounds(o: Opportunity, pair1: string, pair2: string, pair3: string, fee: real)
    requires EvaluatedFromPriceData(o, pair1, pair2, pair3, fee)
    ensures |o.route| == 4 && o.route[0] == pair3 && o.route[3] == pair3
    ensures multiset(o.route[1..3]) == multiset{pair1, pair2}
    ensures o.priceData.inefficiency >= 0.0
    ensures o.gasEstimate >= 0.0 ==>
              o.profit <= BestProfit(o.priceData.token1Price, o.priceData.token2Price, o.priceData.crossRate, fee)
  {
    assert o.route[1..3] == [o.route[1], o.route[2]];
  }

  /** One evaluation from three fetched quotes: no result when any quote is missing. */
  function CalculateOpportunity(
    exchange: string, pair1: string, pair2: string, pair3: string,
    fee: real, totalGas: real, ceiling: real, th: Thresholds,
    q13: Option<TokenPrice>, q23: Option<TokenPrice>, q12: Option<TokenPrice>): (r: Option<Opportunity>)
    requires PricedPositively(q13) && PricedPositively(q23) && PricedPositively(q12)
    ensures r.Some? <==> q13.Some? && q23.Some? && q12.Some?
    ensures r.Some? ==>
      var o := r.value;
      && o.exchange == exchange
      && o.pairs == PairsLabel(pair1, pair2, pair3)
      && o.priceData.token1Price == q13.value.price
      && o.priceData.token2Price == q23.value.price
      && o.priceData.crossRate == q12.value.price
      && o.liquidity == LegLiquidity(LiquidityOrZero(q13.value), LiquidityOrZero(q23.value), LiquidityOrZero(q12.value))
      && o.fees == 3.0 * fee
      && o.gasEstimate == totalGas
      && EvaluatedFromPriceData(o, pair1, pair2, pair3, fee)
      && (o.viable <==> o.profit > th.minProfitThreshold
                        && Min3(o.liquidity.pair1, o.liquidity.pair2, o.liquidity.pair3) > th.minLiquidity
                        && Abs(o.profit) < ceiling)
  {
    if q13.None? || q23.None? || q12.None? then None
    else
      var a, b, c := q13.value, q23.value, q12.value;
      var e := Evaluate(a.price, b.price, c.price,
                        LiquidityOrZero(a), LiquidityOrZero(b), LiquidityOrZero(c),
                        fee, totalGas, ceiling, th);
      var route := RouteTokens(e.route1Chosen, pair1, pair2, pair3);
      Some(Opportunity(
        exchange, PairsLabel(pair1, pair2, pair3), e.netProfitPercent, route,
        LegLiquidity(LiquidityOrZero(a), LiquidityOrZero(b), LiquidityOrZero(c)),
        fee * 3.0, e.viable,
        PriceData(a.price, b.price, c.price, e.inefficiencyPercent),
        totalGas))
  }

  // ---------------------------------------------------------------------------
  // Properties of the two cycles

  /** Route 1 ends with 1000 * (p12 * p23 / p13) * k^3, k the fee factor. */
  lemma Route1ClosedForm(p13: real, p23: real, p12: real, fee: real)
    requires p13 > 0.0
    ensures Route1Final(p13, p23, p12, fee)
            == StartingAmount * (p12 * p23 / p13) * (FeeFactor(fee) * FeeFactor(fee) * FeeFactor(fee))
  {
    var k := FeeFactor(fee);
    var x := StartingAmount / p13;
    assert x * p13 == StartingAmount;
    calc {
      Route1Final(p13, p23, p12, fee);
      x * k * p12 * k * p23 * k;
      { assert x * k * p12 * k * p23 * k == x * (p12 * p23) * (k * k * k); }
      x * (p12 * p23) * (k * k * k);
      { assert x * (p12 * p23) == StartingAmount * (p12 * p23 / p13); }
      StartingAmount * (p12 * p23 / p13) * (k * k * k);
    }
  }

  /** Route 2 ends with 1000 * (p13 / (p23 * p12)) * k^3. */
  lemma Route2ClosedForm(p13: real, p23: real, p12: real, fee: real)
    requires p23 > 0.0 && p12 > 0.0
    ensures Route2Final(p13, p23, p12, fee)
            == StartingAmount * (p13 / (p23 * p12)) * (FeeFactor(fee) * FeeFactor(fee) * FeeFactor(fee))
  {
    var k := FeeFactor(fee);
    var x := StartingAmount / p23;
    var y := x * k / p12;
    assert y * p12 == x * k;
    assert x * p23 == StartingAmount;
    assert y * p13 * k * k == StartingAmount * (p13 / (p23 * p12)) * (k * k * k) by {
      assert y * (p23 * p12) == StartingAmount * k;
      assert StartingAmount * (p13 / (p23 * p12)) * (p23 * p12) == StartingAmount * p13;
    }
  }

  /** The two cycles are each other's inverse: ignoring fees their growth
      factors multiply to 1, and with fees to k^6. */
  lemma CyclesAreReciprocal(p13: real, p23: real, p12: real, fee: real)
    requires p13 > 0.0 && p23 > 0.0 && p12 > 0.0
    ensures (1.0 + ProfitPercent(Route1Final(p13, p23, p12, fee)) / 100.0)
          * (1.0 + ProfitPercent(Route2Final(p13, p23, p12, fee)) / 100.0)
         == FeeFactor(fee) * FeeFactor(fee) * FeeFactor(fee) * FeeFactor(fee) * FeeFactor(fee) * FeeFactor(fee)
  {
    var k3 := FeeFactor(fee) * FeeFactor(fee) * FeeFactor(fee);
    Route1ClosedForm(p13, p23, p12, fee);
    Route2ClosedForm(p13, p23, p12, fee);
    var g1 := p12 * p23 / p13;
    var g2 := p13 / (p23 * p12);
    assert g1 * g2 == 1.0 by {
      assert g1 * p13 == p12 * p23;
      assert g2 * (p23 * p12) == p13;
    }
    assert 1.0 + ProfitPercent(Route1Final(p13, p23, p12, fee)) / 100.0 == g1 * k3;
    assert 1.0 + ProfitPercent(Route2Final(p13, p23, p12, fee)) / 100.0 == g2 * k3;
    assert g1 * k3 * (g2 * k3) == (g1 * g2) * (k3 * k3);
  }

  /** Route 1 gains exactly when the product of the two forward rates, after
      three fees, beats the rate it buys at. */
  lemma Route1ProfitableIff(p13: real, p23: real, p12: real, fee: real)
    requires p13 > 0.0
    ensures ProfitPercent(Route1Final(p13, p23, p12, fee)) > 0.0
            <==> p12 * p23 * (FeeFactor(fee) * FeeFactor(fee) * FeeFactor(fee)) > p13
  {
    var k3 := FeeFactor(fee) * FeeFactor(fee) * FeeFactor(fee);
    Route1ClosedForm(p13, p23, p12, fee);
    var g := p12 * p23 / p13;
    assert g * p13 == p12 * p23;
    assert ProfitPercent(Route1Final(p13, p23, p12, fee)) == (g * k3 - 1.0) * 100.0;
    assert g * k3 * p13 == p12 * p23 * k3;
    if g * k3 > 1.0 {
      assert g * k3 * p13 > p13;
    } else {
      assert g * k3 * p13 <= p13;
    }
  }

  /** With a fee between 0 and 100 percent the two cycles cannot both gain. */
  lemma AtMostOneCycleGains(p13: real, p23: real, p12: real, fee: real)
    requires p13 > 0.0 && p23 > 0.0 && p12 > 0.0
    requires 0.0 <= fee <= 100.0
    ensures !(ProfitPercent(Route1Final(p13, p23, p12, fee)) > 0.0
              && ProfitPercent(Route2Final(p13, p23, p12, fee)) > 0.0)
  {
    var k := FeeFactor(fee);
    CyclesAreReciprocal(p13, p23, p12, fee);
    var a := 1.0 + ProfitPercent(Route1Final(p13, p23, p12, fee)) / 100.0;
    var b := 1.0 + ProfitPercent(Route2Final(p13, p23, p12, fee)) / 100.0;
    assert 0.0 <= k <= 1.0;
    UnitProduct(k, k);
    UnitProduct(k * k, k);
    UnitProduct(k * k * k, k * k * k);
    assert k * k * k * k * k * k == (k * k * k) * (k * k * k);
    ProductAboveOne(a, b);
  }

  lemma UnitProduct(x: real, y: real)
    requires 0.0 <= x <= 1.0 && 0.0 <= y <= 1.0
    ensures 0.0 <= x * y <= 1.0
  {
    assert 0.0 <= x * y;
    assert x * (1.0 - y) >= 0.0;
    assert x * y <= x;
  }

  lemma ProductAboveOne(a: real, b: real)
    ensures a > 1.0 && b > 1.0 ==> a * b > 1.0
  {
    if a > 1.0 && b > 1.0 {
      var c := b - 1.0;
      assert a * c > 0.0;
      assert a * b == a * c + a;
    }
  }

  /** With no fee and mutually consistent rates (p13 == p12 * p23), neither
      cycle gains or loses and the cross rate shows no inefficiency. */
  lemma ConsistentRatesNoArbitrage(p13: real, p23: real, p12: real)
    requires p23 > 0.0 && p12 > 0.0 && p13 == p12 * p23
    ensures ProfitPercent(Route1Final(p13, p23, p12, 0.0)) == 0.0
    ensures ProfitPercent(Route2Final(p13, p23, p12, 0.0)) == 0.0
    ensures CrossRateInefficiency(p13, p23, p12) == 0.0
  {
    Route1ClosedForm(p13, p23, p12, 0.0);
    Route2ClosedForm(p13, p23, p12, 0.0);
    assert FeeFactor(0.0) == 1.0;
    assert p12 * p23 / p13 == 1.0;
    assert p13 / (p23 * p12) == 1.0;
  }

  /** Hence, under consistent rates and no fee, nothing is viable against a
      non-negative profit threshold once gas is non-negative. */
  lemma ConsistentRatesNeverViable(
    p13: real, p23: real, p12: real, liq13: real, liq23: real, liq12: real,
    totalGas: real, ceiling: real, th: Thresholds)
    requires p23 > 0.0 && p12 > 0.0 && p13 == p12 * p23
    requires totalGas >= 0.0 && th.minProfitThreshold >= 0.0
    ensures !Evaluate(p13, p23, p12, liq13, liq23, liq12, 0.0, totalGas, ceiling, th).viable
  {
    ConsistentRatesNoArbitrage(p13, p23, p12);
  }

  /** With consistent rates and a fee between 0 and 100 percent, each cycle
      keeps exactly k^3 of the starting amount and so neither gains. */
  lemma ConsistentRatesNeverGain(p13: real, p23: real, p12: real, fee: real)
    requires p23 > 0.0 && p12 > 0.0 && p13 == p12 * p23
    requires 0.0 <= fee <= 100.0
    ensures Route1Final(p13, p23, p12, fee) == Route2Final(p13, p23, p12, fee)
    ensures ProfitPercent(Route1Final(p13, p23, p12, fee)) <= 0.0
    ensures ProfitPercent(Route2Final(p13, p23, p12, fee)) <= 0.0
  {
    var k := FeeFactor(fee);
    Route1ClosedForm(p13, p23, p12, fee);
    Route2ClosedForm(p13, p23, p12, fee);
    assert p12 * p23 / p13 == 1.0;
    assert p13 / (p23 * p12) == 1.0;
    UnitProduct(k, k);
    UnitProduct(k * k, k);
  }

  /** A worked case: rates 30, 3 and 10.2 with a 0.3% fee. The implied cross
      rate is 10 against a quoted 10.2 (an inefficiency of 0.2 / 10.2, about 1.96%); route 1 wins with
      1020 * 0.997^3 = 1010.84751246 units, a 1.084751246% gain; with 0.5 of
      gas the net is 1.034751246%, viable against a 0.1% threshold while every
      leg holds 5000 of liquidity, and not viable when one leg holds only 500. */
  lemma WorkedExample(ceiling: real)
    requires ceiling > 2.0
    ensures var e := Evaluate(30.0, 3.0, 10.2, 5000.0, 5000.0, 5000.0, 0.3, 0.5, ceiling, Thresholds(0.1, 1000.0));
            && e.route1Chosen
            && e.profitPercent1 == 1.084751246
            && e.netProfitPercent == 1.034751246
            && e.inefficiencyPercent == 100.0 / 51.0
            && e.viable
    ensures !Evaluate(30.0, 3.0, 10.2, 500.0, 5000.0, 5000.0, 0.3, 0.5, ceiling, Thresholds(0.1, 1000.0)).viable
  {
    Route1ClosedForm(30.0, 3.0, 10.2, 0.3);
    Route2ClosedForm(30.0, 3.0, 10.2, 0.3);
    assert FeeFactor(0.3) == 0.997;
    assert 10.2 * 3.0 / 30.0 == 1.02;
    assert 30.0 / (3.0 * 10.2) < 1.0;
  }
}
