/** The fare model: per-tier rate card, quoted fare, itemised final fare and the
    surge bucket. Money is whole paise, distances metres, durations seconds. The
    program computes in floating point; here every quotient is an exact real. */
module Pricing {

  datatype Tier = Mini | Sedan | Xl

  datatype TierRates = TierRates(basePaise: int, perKmPaise: int, perMinPaise: int)

  const TIERS: set<Tier> := {Mini, Sedan, Xl}

  function Rates(tier: Tier): TierRates {
    match tier
    case Mini => TierRates(3000, 1100, 150)
    case Sedan => TierRates(5000, 1500, 200)
    case Xl => TierRates(8000, 2000, 300)
  }

  /** Nearest integer, halves away from zero. */
  function Round(x: real): int {
    if x >= 0.0 then (x + 0.5).Floor else -((-x + 0.5).Floor)
  }

  /** The pre-surge price of a leg, unrounded. */
  function ExactPrice(rates: TierRates, distanceM: int, durationS: int): real {
    rates.basePaise as real
    + distanceM as real / 1000.0 * rates.perKmPaise as real
    + durationS as real / 60.0 * rates.perMinPaise as real
  }

  function Surged(paise: real, surgeX100: int): real {
    paise * surgeX100 as real / 100.0
  }

  function ToRupee(paise: real): int {
    Round(paise / 100.0) * 100
  }

  function Fare(rates: TierRates, distanceM: int, durationS: int, surgeX100: int): int {
    ToRupee(Surged(ExactPrice(rates, distanceM, durationS), surgeX100))
  }

  datatype Breakdown = Breakdown(
    base: int, distanceComponent: int, timeComponent: int, surgeX100: int, total: int)
  {
    /** The sum of the pre-surge line items of a receipt. */
    function LineItems(): int {
      base + distanceComponent + timeComponent
    }
  }

  /** One rounded line item: a quantity in the given unit at a rate per unit. */
  function LineItem(quantity: int, unit: real, rate: int): int
    requires unit > 0.0
  {
    Round(quantity as real / unit * rate as real)
  }

  function FinalFare(rates: TierRates, distanceM: int, durationS: int, surgeX100: int): Breakdown {
    var dist := LineItem(distanceM, 1000.0, rates.perKmPaise);
    var time := LineItem(durationS, 60.0, rates.perMinPaise);
    var total := ToRupee(Surged((rates.basePaise + dist + time) as real, surgeX100));
    Breakdown(rates.basePaise, dist, time, surgeX100, total)
  }

  /** Surge multiplier from the demand/supply ratio. */
  function Bucket(demand: int, supply: int): int {
    if supply <= 0 then 200
    else
      var ratio := demand as real / supply as real;
      if ratio < 1.0 then 100
      else if ratio < 2.0 then 120
      else if ratio < 3.0 then 150
      else 200
  }

  /** The fare of every tier for one leg. */
  method Prices(distanceM: int, durationS: int, surgeX100: int) returns (out: map<Tier, int>)
    ensures forall t: Tier :: t in out && out[t] == Fare(Rates(t), distanceM, durationS, surgeX100)
  {
    out := map[];
    var left := TIERS;
    while left != {}
      invariant out.Keys == TIERS - left && left <= TIERS
      invariant forall t :: t in out ==> out[t] == Fare(Rates(t), distanceM, durationS, surgeX100)
      decreases left
    {
      var t :| t in left;
      out := out[t := Fare(Rates(t), distanceM, durationS, surgeX100)];
      left := left - {t};
    }
    forall t: Tier ensures t in TIERS { EveryTierListed(t); }
  }

  lemma EveryTierListed(t: Tier)
    ensures t in TIERS
  {
  }

  // ---- rounding ----

  /** Round is the only integer within half a unit that resolves halves away from zero. */
  lemma RoundIsNearest(x: real, n: int)
    ensures n == Round(x) <==>
      (-0.5 <= n as real - x <= 0.5
       && (n as real - x == 0.5 ==> x > 0.0)
       && (n as real - x == -0.5 ==> x < 0.0))
  {
  }

  lemma RoundMonotone(x: real, y: real)
    requires x <= y
    ensures Round(x) <= Round(y)
  {
  }

  /** Numbers less than n apart round to integers at most n apart. */
  lemma RoundNonExpanding(x: real, y: real, n: nat)
    requires x <= y < x + n as real
    ensures Round(x) <= Round(y) <= Round(x) + n
  {
  }

  // ---- fares ----

  lemma SurgedMonotone(p: real, q: real, s: int, s': int)
    requires 0.0 <= p <= q && 0 <= s <= s'
    ensures 0.0 <= Surged(p, s) <= Surged(q, s')
  {
  }

  lemma ScaledMonotone(x: int, y: int, unit: real, rate: int, rate': int)
    requires 0 <= x <= y && unit > 0.0 && 0 <= rate <= rate'
    ensures 0.0 <= x as real / unit * rate as real <= y as real / unit * rate' as real
  {
  }

  lemma LineItemMonotone(x: int, y: int, unit: real, rate: int, rate': int)
    requires 0 <= x <= y && unit > 0.0 && 0 <= rate <= rate'
    ensures 0 <= LineItem(x, unit, rate) <= LineItem(y, unit, rate')
  {
    ScaledMonotone(x, y, unit, rate, rate');
    RoundMonotone(0.0, x as real / unit * rate as real);
    RoundMonotone(x as real / unit * rate as real, y as real / unit * rate' as real);
  }

  ghost predicate CheaperCard(a: TierRates, b: TierRates) {
    0 <= a.basePaise <= b.basePaise && 0 <= a.perKmPaise <= b.perKmPaise
    && 0 <= a.perMinPaise <= b.perMinPaise
  }

  lemma ToRupeeMonotone(p: real, q: real, s: int, s': int)
    requires 0.0 <= p <= q && 0 <= s <= s'
    ensures 0 <= ToRupee(Surged(p, s)) <= ToRupee(Surged(q, s'))
  {
    SurgedMonotone(p, q, s, s');
    RoundMonotone(0.0, Surged(p, s) / 100.0);
    RoundMonotone(Surged(p, s) / 100.0, Surged(q, s') / 100.0);
  }

  /** The quoted fare never falls when the leg gets longer, the surge higher or the
      rate card dearer. */
  lemma FareMonotone(a: TierRates, b: TierRates, d: int, d': int, t: int, t': int, s: int, s': int)
    requires CheaperCard(a, b)
    requires 0 <= d <= d' && 0 <= t <= t' && 0 <= s <= s'
    ensures 0 <= Fare(a, d, t, s) <= Fare(b, d', t', s')
  {
    ScaledMonotone(d, d', 1000.0, a.perKmPaise, b.perKmPaise);
    ScaledMonotone(t, t', 60.0, a.perMinPaise, b.perMinPaise);
    ToRupeeMonotone(ExactPrice(a, d, t), ExactPrice(b, d', t'), s, s');
  }

  /** The same holds of the fare charged at the end of a trip. */
  lemma FinalFareMonotone(a: TierRates, b: TierRates, d: int, d': int, t: int, t': int, s: int, s': int)
    requires CheaperCard(a, b)
    requires 0 <= d <= d' && 0 <= t <= t' && 0 <= s <= s'
    ensures 0 <= FinalFare(a, d, t, s).total <= FinalFare(b, d', t', s').total
  {
    LineItemMonotone(d, d', 1000.0, a.perKmPaise, b.perKmPaise);
    LineItemMonotone(t, t', 60.0, a.perMinPaise, b.perMinPaise);
    ToRupeeMonotone(FinalFare(a, d, t, s).LineItems() as real, FinalFare(b, d', t', s').LineItems() as real, s, s');
  }

  /** A mini never costs more than a sedan, nor a sedan more than an xl. */
  lemma TiersOrdered(d: int, t: int, s: int)
    requires 0 <= d && 0 <= t && 0 <= s
    ensures Fare(Rates(Mini), d, t, s) <= Fare(Rates(Sedan), d, t, s) <= Fare(Rates(Xl), d, t, s)
    ensures FinalFare(Rates(Mini), d, t, s).total <= FinalFare(Rates(Sedan), d, t, s).total
            <= FinalFare(Rates(Xl), d, t, s).total
  {
    FareMonotone(Rates(Mini), Rates(Sedan), d, d, t, t, s, s);
    FareMonotone(Rates(Sedan), Rates(Xl), d, d, t, t, s, s);
    FinalFareMonotone(Rates(Mini), Rates(Sedan), d, d, t, t, s, s);
    FinalFareMonotone(Rates(Sedan), Rates(Xl), d, d, t, t, s, s);
  }

  /** Both fares are whole rupees, each within half a rupee of the amount it rounds. */
  lemma WholeRupees(rates: TierRates, d: int, t: int, s: int)
    ensures Fare(rates, d, t, s) % 100 == 0 && FinalFare(rates, d, t, s).total % 100 == 0
    ensures -50.0 <= Fare(rates, d, t, s) as real - Surged(ExactPrice(rates, d, t), s) <= 50.0
    ensures var b := FinalFare(rates, d, t, s);
      -50.0 <= b.total as real - Surged(b.LineItems() as real, b.surgeX100) <= 50.0
  {
  }

  /** n is the multiple of `unit` nearest to x, halves away from zero. */
  ghost predicate NearestMultiple(n: int, unit: int, x: real)
    requires unit > 0
  {
    var (off, half) := (n as real - x, unit as real / 2.0);
    && n % unit == 0 && -half <= off <= half
    && (off == half ==> x > 0.0) && (off == -half ==> x < 0.0)
  }

  lemma ToRupeeIsNearest(paise: real)
    ensures NearestMultiple(ToRupee(paise), 100, paise)
  {
    RoundIsNearest(paise / 100.0, Round(paise / 100.0));
    assert paise / 100.0 * 100.0 == paise;
  }

  /** The quoted fare is the whole number of rupees nearest to the surged price of the leg. */
  lemma QuotedFare(card: TierRates, metres: int, seconds: int, surgeX100: int, price: real)
    requires price == card.basePaise as real + metres as real / 1000.0 * card.perKmPaise as real
                    + seconds as real / 60.0 * card.perMinPaise as real
    ensures NearestMultiple(Fare(card, metres, seconds, surgeX100), 100, price * surgeX100 as real / 100.0)
  {
    assert price == ExactPrice(card, metres, seconds);
    hide NearestMultiple, ToRupee, ExactPrice;
    ToRupeeIsNearest(Surged(price, surgeX100));
  }

  /** The final fare itemises the base, the distance and the time in whole paise, and its
      total is the whole number of rupees nearest to their surged sum. */
  lemma ItemisedFare(card: TierRates, metres: int, seconds: int, surgeX100: int, sum: real)
    requires var b := FinalFare(card, metres, seconds, surgeX100);
      sum == (b.base + b.distanceComponent + b.timeComponent) as real
    ensures var b := FinalFare(card, metres, seconds, surgeX100);
      && b.base == card.basePaise && b.surgeX100 == surgeX100
      && NearestMultiple(b.total, 100, sum * surgeX100 as real / 100.0)
    ensures forall x | x == metres as real / 1000.0 * card.perKmPaise as real ::
      NearestMultiple(FinalFare(card, metres, seconds, surgeX100).distanceComponent, 1, x)
    ensures forall x | x == seconds as real / 60.0 * card.perMinPaise as real ::
      NearestMultiple(FinalFare(card, metres, seconds, surgeX100).timeComponent, 1, x)
  {
    LineItemIsNearest(metres, 1000.0, card.perKmPaise);
    LineItemIsNearest(seconds, 60.0, card.perMinPaise);
    ItemisedTotal(card, metres, seconds, surgeX100, sum);
    hide NearestMultiple, ToRupee, LineItem;
  }

  lemma LineItemIsNearest(quantity: int, unit: real, rate: int)
    requires unit > 0.0
    ensures forall x | x == quantity as real / unit * rate as real :: NearestMultiple(LineItem(quantity, unit, rate), 1, x)
  {
    forall x | x == quantity as real / unit * rate as real ensures NearestMultiple(LineItem(quantity, unit, rate), 1, x) {
      RoundIsMultiple(x);
    }
    hide NearestMultiple, Round;
  }

  lemma ItemisedTotal(card: TierRates, metres: int, seconds: int, surgeX100: int, sum: real)
    requires var b := FinalFare(card, metres, seconds, surgeX100);
      sum == (b.base + b.distanceComponent + b.timeComponent) as real
    ensures NearestMultiple(FinalFare(card, metres, seconds, surgeX100).total, 100, sum * surgeX100 as real / 100.0)
  {
    hide NearestMultiple, ToRupee, LineItem;
    ToRupeeIsNearest(Surged(sum, surgeX100));
    var b := FinalFare(card, metres, seconds, surgeX100);
    assert b.base + b.distanceComponent + b.timeComponent
        == card.basePaise + LineItem(metres, 1000.0, card.perKmPaise) + LineItem(seconds, 60.0, card.perMinPaise);
    assert b.total == ToRupee(Surged(sum, surgeX100));
    assert Surged(sum, surgeX100) == sum * surgeX100 as real / 100.0;
  }

  /** At the card's rates ten kilometres and twenty minutes cost, in whole rupees and
      without surge, 170, 240 and 340, and half as much again at the middle surge. */
  lemma CardFares()
    ensures Fare(Rates(Mini), 10000, 1200, 100) == 17000 && Fare(Rates(Mini), 10000, 1200, 150) == 25500
    ensures Fare(Rates(Sedan), 10000, 1200, 100) == 24000 && Fare(Rates(Sedan), 10000, 1200, 150) == 36000
    ensures Fare(Rates(Xl), 10000, 1200, 100) == 34000 && Fare(Rates(Xl), 10000, 1200, 150) == 51000
    ensures Rates(Mini) == TierRates(3000, 1100, 150)
    ensures Rates(Sedan) == TierRates(5000, 1500, 200)
    ensures Rates(Xl) == TierRates(8000, 2000, 300)
  {
  }

  lemma RoundIsMultiple(x: real)
    ensures NearestMultiple(Round(x), 1, x)
  {
    RoundIsNearest(x, Round(x));
  }

  /** On equal inputs the itemised fare and the quoted fare differ by at most one rupee
      for every started hundredfold of surge. */
  lemma FinalFareNearFare(rates: TierRates, d: int, t: int, s: nat)
    ensures var rupees := s / 10000 + 1;
      -100 * rupees <= FinalFare(rates, d, t, s).total - Fare(rates, d, t, s) <= 100 * rupees
  {
    LineItemNear(d, 1000.0, rates.perKmPaise);
    LineItemNear(t, 60.0, rates.perMinPaise);
    ToRupeeNear(FinalFare(rates, d, t, s).LineItems() as real, ExactPrice(rates, d, t), s);
  }

  lemma LineItemNear(quantity: int, unit: real, rate: int)
    requires unit > 0.0
    ensures -0.5 <= LineItem(quantity, unit, rate) as real - quantity as real / unit * rate as real <= 0.5
  {
  }

  lemma ToRupeeNear(p: real, q: real, s: nat)
    requires -1.0 <= p - q <= 1.0
    ensures -100 * (s / 10000 + 1) <= ToRupee(Surged(p, s)) - ToRupee(Surged(q, s)) <= 100 * (s / 10000 + 1)
  {
    SurgedDifference(p, q, s);
    var x, y := Surged(p, s) / 100.0, Surged(q, s) / 100.0;
    if x <= y { RoundNonExpanding(x, y, s / 10000 + 1); } else { RoundNonExpanding(y, x, s / 10000 + 1); }
  }

  lemma SurgedDifference(p: real, q: real, s: nat)
    requires -1.0 <= p - q <= 1.0
    ensures var n := (s / 10000 + 1) as real; -n < Surged(p, s) / 100.0 - Surged(q, s) / 100.0 < n
  {
    hide Surged;
    Started(s, s / 10000 + 1);
    SurgedSmall(p - q, s);
    SurgedApart(p, q, s);
  }

  lemma SurgedApart(p: real, q: real, s: nat)
    ensures Surged(p, s) - Surged(q, s) == Surged(p - q, s)
  {
    assert (p - q) * s as real == p * s as real - q * s as real;
  }

  lemma SurgedSmall(d: real, s: nat)
    requires -1.0 <= d <= 1.0
    ensures -(s as real) / 100.0 <= Surged(d, s) <= s as real / 100.0
  {
    ScaledWithin(d, s as real);
    HundredthWithin(d * s as real, s as real);
  }

  lemma ScaledWithin(d: real, c: real)
    requires -1.0 <= d <= 1.0 && c >= 0.0
    ensures -c <= d * c <= c
  {
    assert (d + 1.0) * c >= 0.0 && (1.0 - d) * c >= 0.0;
  }

  lemma HundredthWithin(p: real, c: real)
    requires -c <= p <= c
    ensures -c / 100.0 <= p / 100.0 <= c / 100.0
  {
  }

  lemma Started(s: nat, n: nat)
    requires n == s / 10000 + 1
    ensures s as real < 10000.0 * n as real
  {
    assert s + 1 <= 10000 * n;
    assert (10000 * n) as real == 10000.0 * n as real;
  }

  /** The one-rupee difference does occur without any surge: a mini over 15 m and
      13 s prices at exactly 3049 paise, but its rounded line items add up to 3050. */
  lemma FinalFareCanDiffer()
    ensures Fare(Rates(Mini), 15, 13, 100) == 3000
    ensures FinalFare(Rates(Mini), 15, 13, 100).total == 3100
  {
  }

  // ---- surge ----

  lemma QuotientMonotone(a: real, b: real, x: real, y: real)
    requires 0.0 <= a <= b && 0.0 < y <= x
    ensures a / x <= b / y
  {
    var q := b / y;
    assert q * y == b && q >= 0.0;
    Scaled(q, y, x);
    assert q * x >= a;
    assert q * x / x == q;
    Divided(a, q * x, x);
  }

  lemma Scaled(q: real, y: real, x: real)
    requires q >= 0.0 && y <= x
    ensures q * y <= q * x
  {
  }

  lemma Divided(a: real, b: real, x: real)
    requires a <= b && x > 0.0
    ensures a / x <= b / x
  {
  }

  /** Surge rises with demand and falls with supply, and an empty supply is the cap. */
  lemma BucketMonotone(demand: nat, demand': nat, supply: int, supply': int)
    requires demand <= demand' && supply' <= supply
    ensures 100 <= Bucket(demand, supply) <= Bucket(demand', supply') <= 200
  {
    if supply' > 0 {
      QuotientMonotone(demand as real, demand' as real, supply as real, supply' as real);
    }
  }

  /** The steps of the surge: none while supply exceeds demand, then a fifth, a half and
      double as demand reaches once, twice and three times the supply. */
  lemma SurgeSteps(demand: nat, supply: int)
    ensures Bucket(demand, supply) ==
      if supply <= 0 || demand >= 3 * supply then 200
      else if demand >= 2 * supply then 150
      else if demand >= supply then 120
      else 100
  {
    if supply > 0 {
      RatioBelow(demand, supply, 1);
      RatioBelow(demand, supply, 2);
      RatioBelow(demand, supply, 3);
    }
  }

  lemma RatioBelow(demand: nat, supply: int, n: nat)
    requires supply > 0
    ensures demand as real / supply as real < n as real <==> demand < n * supply
  {
    var q := demand as real / supply as real;
    assert q * supply as real == demand as real;
    assert (n * supply) as real == n as real * supply as real;
    if q < n as real {
      Scaled(1.0, q, n as real);
      assert (n as real - q) * supply as real > 0.0;
    } else {
      assert (q - n as real) * supply as real >= 0.0;
    }
  }

}
