/** Prices and the tiered sale-price estimate (`PRICE_MARKUP_TIERS`,
    `_calculate_sale_price` and the inline estimate of `parse_medications_from_section`).
    Prices are exact decimals as printed in the circulaire, in dinars; the estimate is
    computed in millimes (thousandths of a dinar) with an explicit rounding mode in
    place of `round(x, 3)` on binary floats. */
module Prices {

  import opened Wrappers

  /** The decimal `mantissa / 10^scale`: "12,500" is Decimal(12500, 3). */
  datatype Decimal = Decimal(mantissa: nat, scale: nat)

  function Pow10(n: nat): (p: nat)
    ensures p >= 1
  {
    if n == 0 then 1 else 10 * Pow10(n - 1)
  }

  /** `d >= t` for a whole number of dinars `t`. */
  predicate AtLeast(d: Decimal, t: nat)
  {
    d.mantissa >= t * Pow10(d.scale)
  }

  /** Python truthiness of a parsed price: only 0.0 is false. */
  predicate IsNonZero(d: Decimal) { d.mantissa != 0 }

  /** `PRICE_MARKUP_TIERS`: (threshold in dinars, ratio in thousandths), highest threshold first. */
  const MarkupTiers: seq<(nat, nat)> := [(25, 1316), (8, 1351), (3, 1389), (0, 1429)]

  /** The ratio of the first tier whose threshold the price reaches. */
  function FirstTierRatio(p: Decimal, tiers: seq<(nat, nat)>): (r: Option<nat>)
    ensures r.Some? <==> exists k :: 0 <= k < |tiers| && AtLeast(p, tiers[k].0)
  {
    if tiers == [] then None
    else if AtLeast(p, tiers[0].0) then Some(tiers[0].1)
    else
      var r := FirstTierRatio(p, tiers[1..]);
      assert forall k :: 1 <= k < |tiers| ==> tiers[k] == tiers[1..][k - 1];
      r
  }

  /** The loop of `_calculate_sale_price`, with its fall-back to the last tier's ratio. */
  function TierRatio(p: Decimal): nat
  {
    match FirstTierRatio(p, MarkupTiers)
    case Some(r) => r
    case None => MarkupTiers[|MarkupTiers| - 1].1
  }

  /** The if-chain written out in `parse_medications_from_section`. */
  function InlineRatio(p: Decimal): nat
  {
    if AtLeast(p, 25) then 1316
    else if AtLeast(p, 8) then 1351
    else if AtLeast(p, 3) then 1389
    else 1429
  }

  /** The tier table read as price bands: at least 25 dinars gives 1.316, 8 up to 25
      gives 1.351, 3 up to 8 gives 1.389, anything lower 1.429; the inline chain of
      the standalone script picks the same ratio, and the fall-back after the loop is
      never needed, since every price reaches the threshold 0. */
  lemma TierBands(p: Decimal)
    ensures AtLeast(p, 25) ==> TierRatio(p) == 1316
    ensures !AtLeast(p, 25) && AtLeast(p, 8) ==> TierRatio(p) == 1351
    ensures !AtLeast(p, 8) && AtLeast(p, 3) ==> TierRatio(p) == 1389
    ensures !AtLeast(p, 3) ==> TierRatio(p) == 1429
    ensures TierRatio(p) == InlineRatio(p)
    ensures FirstTierRatio(p, MarkupTiers).Some?
  {
    var tail1 := MarkupTiers[1..];
    var tail2 := tail1[1..];
    var tail3 := tail2[1..];
    assert tail1 == [(8, 1351), (3, 1389), (0, 1429)];
    assert tail2 == [(3, 1389), (0, 1429)];
    assert tail3 == [(0, 1429)];
    assert FirstTierRatio(p, tail3) == Some(1429);
    assert FirstTierRatio(p, tail2) == if AtLeast(p, 3) then Some(1389) else Some(1429);
    assert FirstTierRatio(p, tail1) == if AtLeast(p, 8) then Some(1351) else FirstTierRatio(p, tail2);
    assert FirstTierRatio(p, MarkupTiers) == if AtLeast(p, 25) then Some(1316) else FirstTierRatio(p, tail1);
  }

  /** A higher price never gets a higher ratio. */
  lemma TierRatioAntitone(p: Decimal, q: Decimal)
    requires p.scale == q.scale && p.mantissa <= q.mantissa
    ensures TierRatio(q) <= TierRatio(p)
  {
    TierBands(p);
    TierBands(q);
  }

  /** How `round(x, 3)` is taken to resolve a value exactly half-way between two millimes. */
  datatype RoundingMode = HalfUp | HalfEven

  /** `n / d` rounded to the nearest whole number. */
  function RoundDiv(n: nat, d: nat, mode: RoundingMode): nat
    requires d > 0
  {
    var q := n / d;
    var r := n % d;
    if 2 * r > d then q + 1
    else if 2 * r < d then q
    else match mode
      case HalfUp => q + 1
      case HalfEven => if q % 2 == 0 then q else q + 1
  }

  /** Rounding is to a nearest whole number: the result is within half a unit of `n / d`. */
  lemma RoundDivNearest(n: nat, d: nat, mode: RoundingMode)
    requires d > 0
    ensures var q := RoundDiv(n, d, mode); 2 * n <= 2 * q * d + d && 2 * q * d <= 2 * n + d
  {
    var q := n / d;
    var r := n % d;
    assert n == q * d + r;
  }

  /** The two rounding modes disagree only on exact ties, and then by one millime. */
  lemma RoundingModesDifferOnlyAtTies(n: nat, d: nat)
    requires d > 0
    ensures RoundDiv(n, d, HalfUp) != RoundDiv(n, d, HalfEven) ==> 2 * (n % d) == d
    ensures RoundDiv(n, d, HalfEven) <= RoundDiv(n, d, HalfUp) <= RoundDiv(n, d, HalfEven) + 1
  {
  }

  /** Rounding is monotone in the numerator. */
  lemma RoundDivMonotone(n: nat, m: nat, d: nat, mode: RoundingMode)
    requires d > 0 && n <= m
    ensures RoundDiv(n, d, mode) <= RoundDiv(m, d, mode)
  {
    var qn, rn := n / d, n % d;
    var qm, rm := m / d, m % d;
    DivMonotone(n, m, d);
    if qn < qm {
      assert RoundDiv(n, d, mode) <= qn + 1;
      assert qm <= RoundDiv(m, d, mode);
    } else {
      assert n == qn * d + rn && m == qm * d + rm;
      assert rn <= rm;
    }
  }

  lemma DivMonotone(n: nat, m: nat, d: nat)
    requires d > 0 && n <= m
    ensures n / d <= m / d
  {
    var qn, qm := n / d, m / d;
    assert n == qn * d + n % d && m == qm * d + m % d;
    if qn > qm {
      MulMonotone(qm + 1, qn, d);
    }
  }

  lemma MulMonotone(a: nat, b: nat, d: nat)
    requires a <= b
    ensures a * d <= b * d
  {
    assert b * d == a * d + (b - a) * d;
  }

  /** `_calculate_sale_price`: the pharmacy price times its tier ratio, rounded to
      three decimals, as a decimal in millimes. */
  function SalePrice(pharmacy: Decimal, mode: RoundingMode): (sale: Decimal)
    ensures sale.scale == 3
  {
    Decimal(RoundDiv(pharmacy.mantissa * TierRatio(pharmacy), Pow10(pharmacy.scale), mode), 3)
  }

  /** The standalone script's own estimate: the inline chain's ratio, rounded the same way. */
  function InlineSalePrice(pharmacy: Decimal, mode: RoundingMode): (sale: Decimal)
    ensures sale.scale == 3
  {
    Decimal(RoundDiv(pharmacy.mantissa * InlineRatio(pharmacy), Pow10(pharmacy.scale), mode), 3)
  }

  /** The standalone estimate and `_calculate_sale_price` agree on every price. */
  lemma InlineSalePriceAgrees(pharmacy: Decimal, mode: RoundingMode)
    ensures InlineSalePrice(pharmacy, mode) == SalePrice(pharmacy, mode)
  {
    TierBands(pharmacy);
  }

  /** The estimate lies between the price marked up by the smallest ratio (1.316) and
      by the largest (1.429), and so is never below the pharmacy price itself. */
  lemma SalePriceBounds(pharmacy: Decimal, mode: RoundingMode)
    ensures RoundDiv(pharmacy.mantissa * 1316, Pow10(pharmacy.scale), mode) <= SalePrice(pharmacy, mode).mantissa
    ensures SalePrice(pharmacy, mode).mantissa <= RoundDiv(pharmacy.mantissa * 1429, Pow10(pharmacy.scale), mode)
    ensures RoundDiv(pharmacy.mantissa * 1000, Pow10(pharmacy.scale), mode) <= SalePrice(pharmacy, mode).mantissa
  {
    var m := pharmacy.mantissa;
    var ratio := TierRatio(pharmacy);
    TierBands(pharmacy);
    assert 1316 <= ratio <= 1429;
    assert m * 1000 <= m * 1316 <= m * ratio <= m * 1429 by {
      assert m * ratio - m * 1316 == m * (ratio - 1316);
      assert m * 1429 - m * ratio == m * (1429 - ratio);
    }
    RoundDivMonotone(m * 1316, m * ratio, Pow10(pharmacy.scale), mode);
    RoundDivMonotone(m * ratio, m * 1429, Pow10(pharmacy.scale), mode);
    RoundDivMonotone(m * 1000, m * 1316, Pow10(pharmacy.scale), mode);
  }

  /** The estimate is not monotone in the price: just below a tier threshold the larger
      ratio gives a higher sale price than the threshold itself (24.999 gives 33.774,
      25.000 gives 32.900). */
  lemma SalePriceNotMonotone(mode: RoundingMode)
    ensures SalePrice(Decimal(24999, 3), mode).mantissa > SalePrice(Decimal(25000, 3), mode).mantissa
  {
    MillimeSalePrice(24999, mode);
    MillimeSalePrice(25000, mode);
    assert RoundDiv(24999 * 1351, 1000, mode) == 33774;
    assert RoundDiv(25000 * 1316, 1000, mode) == 32900;
  }

  /** Sample estimates: 30.000 dinars gives 39.480, and 5.000 dinars falls in the 1.389 band (6.945). */
  lemma SalePriceExamples(mode: RoundingMode)
    ensures SalePrice(Decimal(30000, 3), mode) == Decimal(39480, 3)
    ensures SalePrice(Decimal(5000, 3), mode) == Decimal(6945, 3)
  {
    MillimeSalePrice(30000, mode);
    MillimeSalePrice(5000, mode);
    assert RoundDiv(30000 * 1316, 1000, mode) == 39480;
    assert RoundDiv(5000 * 1389, 1000, mode) == 6945;
  }

  /** The estimate of a price given in millimes, by band. */
  lemma MillimeSalePrice(m: nat, mode: RoundingMode)
    ensures var ratio := if m >= 25000 then 1316 else if m >= 8000 then 1351 else if m >= 3000 then 1389 else 1429;
      SalePrice(Decimal(m, 3), mode).mantissa == RoundDiv(m * ratio, 1000, mode)
  {
    assert Pow10(3) == 1000 by {
      assert Pow10(1) == 10 && Pow10(2) == 100;
    }
    TierBands(Decimal(m, 3));
  }
}
