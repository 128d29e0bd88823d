/** src/common/pricing/pricing.ts: the price of a slot, its inverse, the fee split and pro-rata settlement. */
module Pricing {
  import opened Common

  /** divRound: the only rounding in the pricing code. */
  function DivRound(n: nat, d: nat): (r: nat)
    requires 0 < d
    ensures RoundsHalfUp(n, d, r)
  {
    var r := (n + d / 2) / d;
    assert n + d / 2 == d * r + (n + d / 2) % d;
    r
  }

  /** The rounded value depends only on the rational n / d, and grows with it. */
  lemma RoundingIsMonotone(n1: int, d1: int, r1: int, n2: int, d2: int, r2: int)
    requires 0 < d1 && 0 < d2
    requires RoundsHalfUp(n1, d1, r1) && RoundsHalfUp(n2, d2, r2)
    requires n1 * d2 <= n2 * d1
    ensures r1 <= r2
  {
    var d := d1 * d2;
    assert d2 * (2 * (d1 * r1)) <= d2 * (2 * n1 + d1);
    assert d1 * (2 * n2 - d2) < d1 * (2 * (d2 * r2));
    assert d2 * (2 * (d1 * r1)) == d * (2 * r1);
    assert d1 * (2 * (d2 * r2)) == d * (2 * r2);
    assert d * (2 * r2 + 2) == d * (2 * r2) + 2 * d;
    CancelFactor(d, 2 * r1, 2 * r2 + 2);
  }

  // ---- Configuration ----

  datatype Objective = Awareness | AppInstall | WebsiteVisit | Purchase | LeadGen

  /** A whole percentage, as the rate configuration form admits for the take rate and the threshold. */
  type Percent = p: nat | p <= 100

  /** Multipliers are held in hundredths, so everything below is integer arithmetic. */
  datatype PricingConfig = PricingConfig(
    rpm: nat,
    objectiveMult: map<Objective, nat>,
    targetingStep: nat,
    targetingCap: nat,
    takeRate: Percent)

  datatype Filters = Filters(
    states: seq<string>, lgas: seq<string>, ageMin: Option<nat>, ageMax: Option<nat>,
    genders: seq<string>, languages: seq<string>, categories: seq<string>, platforms: seq<string>,
    minEffectiveReach: nat, roles: seq<string>)

  datatype PricingError = BadReach | NoMultiplier | BadPromised | BadVerified | BadGross

  datatype Dimension = States | Lgas | Age | Genders | Languages | Categories | Platforms | Reach | Roles

  /** The dimension narrows the audience. An age range is one dimension, however many bounds it has. */
  predicate Constrains(t: Filters, d: Dimension)
  {
    match d
    case States => t.states != []
    case Lgas => t.lgas != []
    case Age => t.ageMin.Some? || t.ageMax.Some?
    case Genders => t.genders != []
    case Languages => t.languages != []
    case Categories => t.categories != []
    case Platforms => t.platforms != []
    case Reach => 0 < t.minEffectiveReach
    case Roles => t.roles != []
  }

  function ConstrainedDimensions(t: Filters): set<Dimension> { set d: Dimension | Constrains(t, d) }

  /** How many targeting dimensions constrain the audience. */
  function ActiveFilters(t: Filters): nat { |ConstrainedDimensions(t)| }

  function ConstrainedAmong(t: Filters, ds: set<Dimension>): set<Dimension> { set d | d in ds && Constrains(t, d) }

  function Bit(b: bool): nat { if b then 1 else 0 }

  lemma OneMoreDimension(t: Filters, ds: set<Dimension>, d: Dimension)
    requires d !in ds
    ensures |ConstrainedAmong(t, ds + {d})| == |ConstrainedAmong(t, ds)| + Bit(Constrains(t, d))
  {
    assert ConstrainedAmong(t, ds + {d}) == if Constrains(t, d) then ConstrainedAmong(t, ds) + {d}
                                            else ConstrainedAmong(t, ds);
  }

  /** The dimensions in the order they are tested. */
  const DIMENSIONS: seq<Dimension> := [States, Lgas, Age, Genders, Languages, Categories, Platforms, Reach, Roles]

  function CountUpTo(t: Filters, n: nat): nat
    requires n <= |DIMENSIONS|
  {
    if n == 0 then 0 else CountUpTo(t, n - 1) + Bit(Constrains(t, DIMENSIONS[n - 1]))
  }

  function FirstDimensions(n: nat): set<Dimension>
    requires n <= |DIMENSIONS|
  {
    if n == 0 then {} else FirstDimensions(n - 1) + {DIMENSIONS[n - 1]}
  }

  lemma {:induction false} FirstAreEarlier(n: nat, d: Dimension)
    requires n <= |DIMENSIONS|
    ensures d in FirstDimensions(n) <==> exists i :: 0 <= i < n && DIMENSIONS[i] == d
  {
    if n > 0 {
      FirstAreEarlier(n - 1, d);
    }
  }

  lemma {:induction false} CountIsCardinality(t: Filters, n: nat)
    requires n <= |DIMENSIONS|
    ensures CountUpTo(t, n) == |ConstrainedAmong(t, FirstDimensions(n))|
  {
    if n == 0 {
      assert ConstrainedAmong(t, FirstDimensions(0)) == {};
    } else {
      CountIsCardinality(t, n - 1);
      FirstAreEarlier(n - 1, DIMENSIONS[n - 1]);
      OneMoreDimension(t, FirstDimensions(n - 1), DIMENSIONS[n - 1]);
    }
  }

  lemma AllDimensions(t: Filters)
    ensures CountUpTo(t, |DIMENSIONS|) == ActiveFilters(t)
  {
    CountIsCardinality(t, |DIMENSIONS|);
    forall d: Dimension ensures d in FirstDimensions(|DIMENSIONS|) {
      EveryDimensionIsListed(d);
      FirstAreEarlier(|DIMENSIONS|, d);
    }
    assert ConstrainedAmong(t, FirstDimensions(|DIMENSIONS|)) == ConstrainedDimensions(t);
  }

  lemma EveryDimensionIsListed(d: Dimension)
    ensures exists i :: 0 <= i < |DIMENSIONS| && DIMENSIONS[i] == d
  {
    assert [DIMENSIONS[0], DIMENSIONS[1], DIMENSIONS[2]] == [States, Lgas, Age];
    assert [DIMENSIONS[3], DIMENSIONS[4], DIMENSIONS[5]] == [Genders, Languages, Categories];
    assert [DIMENSIONS[6], DIMENSIONS[7], DIMENSIONS[8]] == [Platforms, Reach, Roles];
  }

  /** activeFilterCount: one test and increment per dimension. */
  method ActiveFilterCount(t: Filters) returns (n: nat)
    ensures n == ActiveFilters(t)
  {
    n := 0;
    if t.states != [] { n := n + 1; }
    assert n == CountUpTo(t, 1);
    if t.lgas != [] { n := n + 1; }
    assert n == CountUpTo(t, 2);
    if t.ageMin.Some? || t.ageMax.Some? { n := n + 1; }
    assert n == CountUpTo(t, 3);
    if t.genders != [] { n := n + 1; }
    assert n == CountUpTo(t, 4);
    if t.languages != [] { n := n + 1; }
    assert n == CountUpTo(t, 5);
    if t.categories != [] { n := n + 1; }
    assert n == CountUpTo(t, 6);
    if t.platforms != [] { n := n + 1; }
    assert n == CountUpTo(t, 7);
    if 0 < t.minEffectiveReach { n := n + 1; }
    assert n == CountUpTo(t, 8);
    if t.roles != [] { n := n + 1; }
    assert n == CountUpTo(t, 9);
    AllDimensions(t);
  }

  function TargetingMult(count: nat, config: PricingConfig): nat
  {
    Min(100 + config.targetingStep * count, config.targetingCap)
  }

  // ---- Price of a slot, and the reach a price buys ----

  const PRICE_SCALE: nat := 10_000_000

  function Product(a: nat, b: nat): nat { a * b }

  /** Kobo per PRICE_SCALE units of reach. */
  function Rate(objective: Objective, filters: Filters, config: PricingConfig): nat
    requires objective in config.objectiveMult
  {
    Product(Product(config.rpm, config.objectiveMult[objective]), TargetingMult(ActiveFilters(filters), config))
  }

  function SlotPrice(reach: int, objective: Objective, filters: Filters, config: PricingConfig)
    : Result<nat, PricingError>
  {
    if reach < 0 then Err(BadReach)
    else if objective !in config.objectiveMult then Err(NoMultiplier)
    else Ok(DivRound(reach * Rate(objective, filters, config), PRICE_SCALE))
  }

  function SlotTargetReach(price: nat, objective: Objective, filters: Filters, config: PricingConfig)
    : Result<nat, PricingError>
  {
    if objective !in config.objectiveMult then Err(NoMultiplier)
    else if Rate(objective, filters, config) == 0 then Ok(0)
    else Ok(DivRound(price * PRICE_SCALE, Rate(objective, filters, config)))
  }

  /** One for every part of the targeting form that is filled in, an age range being one part. */
  predicate FilledIn(t: Filters, k: nat)
  {
    k == Bit(t.states != []) + Bit(t.lgas != []) + Bit(t.ageMin.Some? || t.ageMax.Some?) + Bit(t.genders != [])
         + Bit(t.languages != []) + Bit(t.categories != []) + Bit(t.platforms != []) + Bit(0 < t.minEffectiveReach)
         + Bit(t.roles != [])
  }

  lemma FilledInIsActive(t: Filters, k: nat)
    requires FilledIn(t, k)
    ensures ActiveFilters(t) == k
  {
    AllDimensions(t);
    assert CountUpTo(t, 1) == CountUpTo(t, 0) + Bit(t.states != []);
    assert CountUpTo(t, 2) == CountUpTo(t, 1) + Bit(t.lgas != []);
    assert CountUpTo(t, 3) == CountUpTo(t, 2) + Bit(t.ageMin.Some? || t.ageMax.Some?);
    assert CountUpTo(t, 4) == CountUpTo(t, 3) + Bit(t.genders != []);
    assert CountUpTo(t, 5) == CountUpTo(t, 4) + Bit(t.languages != []);
    assert CountUpTo(t, 6) == CountUpTo(t, 5) + Bit(t.categories != []);
    assert CountUpTo(t, 7) == CountUpTo(t, 6) + Bit(t.platforms != []);
    assert CountUpTo(t, 8) == CountUpTo(t, 7) + Bit(0 < t.minEffectiveReach);
    assert CountUpTo(t, 9) == CountUpTo(t, 8) + Bit(t.roles != []);
  }

  lemma RegroupRate(a: int, rpm: int, mult: int, m: int)
    ensures a * (rpm * mult * m) == a * rpm * mult * m
  {
  }

  /**
   * What a slot costs, in full: views at the rate per thousand, times the multiplier of the objective, times 100
   * hundredths plus a step for every part of the targeting filled in, the last up to its cap; rounded half up.
   */
  lemma PriceIsTheFormula(reach: int, objective: Objective, t: Filters, config: PricingConfig, k: nat)
    requires FilledIn(t, k)
    ensures var price := SlotPrice(reach, objective, t, config);
            && (price.Ok? <==> 0 <= reach && objective in config.objectiveMult)
            && (price.Ok? ==>
                  var raised := 100 + config.targetingStep * k;
                  var mult := config.objectiveMult[objective];
                  if raised <= config.targetingCap
                  then RoundsHalfUp(reach * config.rpm * mult * raised, 1000 * 100 * 100, price.value)
                  else RoundsHalfUp(reach * config.rpm * mult * config.targetingCap, 1000 * 100 * 100, price.value))
  {
    FilledInIsActive(t, k);
    if 0 <= reach && objective in config.objectiveMult {
      var m := TargetingMult(k, config);
      RegroupRate(reach, config.rpm, config.objectiveMult[objective], m);
    }
  }

  /** The reach a price buys, by the same formula read the other way; nothing when the formula is worth nothing. */
  lemma ReachIsTheFormula(price: nat, objective: Objective, t: Filters, config: PricingConfig, k: nat)
    requires FilledIn(t, k)
    ensures var reach := SlotTargetReach(price, objective, t, config);
            && (reach.Ok? <==> objective in config.objectiveMult)
            && (reach.Ok? ==>
                  var raised := 100 + config.targetingStep * k;
                  var worth := config.rpm * config.objectiveMult[objective]
                               * (if raised <= config.targetingCap then raised else config.targetingCap);
                  if worth == 0 then reach.value == 0
                  else RoundsHalfUp(price * (1000 * 100 * 100), worth, reach.value))
  {
    FilledInIsActive(t, k);
  }

  lemma MoreIsMore(a: nat, x: nat, y: nat)
    requires x <= y
    ensures a * x <= a * y
  {
  }

  lemma RateIsMonotone(objective: Objective, t1: Filters, t2: Filters, config: PricingConfig)
    requires objective in config.objectiveMult && ActiveFilters(t1) <= ActiveFilters(t2)
    ensures Rate(objective, t1, config) <= Rate(objective, t2, config)
  {
    MoreIsMore(config.targetingStep, ActiveFilters(t1), ActiveFilters(t2));
    MoreIsMore(Product(config.rpm, config.objectiveMult[objective]), TargetingMult(ActiveFilters(t1), config),
      TargetingMult(ActiveFilters(t2), config));
  }

  /** Narrowing the audience further never makes a slot cheaper. */
  lemma NarrowerIsNoCheaper(reach: nat, objective: Objective, t1: Filters, t2: Filters, config: PricingConfig)
    requires objective in config.objectiveMult
    requires forall d: Dimension :: Constrains(t1, d) ==> Constrains(t2, d)
    ensures SlotPrice(reach, objective, t1, config).value <= SlotPrice(reach, objective, t2, config).value
  {
    SubsetSize(ConstrainedDimensions(t1), ConstrainedDimensions(t2));
    RateIsMonotone(objective, t1, t2, config);
    var r1, r2 := Rate(objective, t1, config), Rate(objective, t2, config);
    MoreIsMore(reach, r1, r2);
    RoundingIsMonotone(reach * r1, PRICE_SCALE, DivRound(reach * r1, PRICE_SCALE),
                       reach * r2, PRICE_SCALE, DivRound(reach * r2, PRICE_SCALE));
  }

  lemma {:induction false} SubsetSize<T>(a: set<T>, b: set<T>)
    requires a <= b
    ensures |a| <= |b|
  {
    if a != {} {
      var x :| x in a;
      SubsetSize(a - {x}, b - {x});
    }
  }

  /** However narrow the audience, the price is at most the one at the cap. */
  lemma NeverAboveTheCap(reach: nat, objective: Objective, t: Filters, config: PricingConfig, most: int)
    requires objective in config.objectiveMult
    requires RoundsHalfUp(reach * config.rpm * config.objectiveMult[objective] * config.targetingCap, 10_000_000, most)
    ensures SlotPrice(reach, objective, t, config).value <= most
  {
    var rate := Product(Product(config.rpm, config.objectiveMult[objective]), config.targetingCap);
    RegroupRate(reach, config.rpm, config.objectiveMult[objective], config.targetingCap);
    MoreIsMore(Product(config.rpm, config.objectiveMult[objective]), TargetingMult(ActiveFilters(t), config),
      config.targetingCap);
    MoreIsMore(reach, Rate(objective, t, config), rate);
    RoundingIsMonotone(reach * Rate(objective, t, config), PRICE_SCALE, SlotPrice(reach, objective, t, config).value,
                       reach * rate, PRICE_SCALE, most);
  }

  function Abs(x: int): nat { if x < 0 then -x else x }

  /** Two roundings, there and back: n is off by half a step of each. */
  lemma RoundTripError(r: nat, d: nat, k: nat, p: nat, t: nat)
    requires 0 < d && 0 < k
    requires RoundsHalfUp(r * d, k, p) && RoundsHalfUp(p * k, d, t)
    ensures 2 * d * Abs(t - r) <= k + d
  {
    assert p * k == k * p;
    AbsOfProduct(d, t, r);
  }

  lemma AbsOfProduct(d: nat, t: int, r: int)
    ensures 2 * d * Abs(t - r) == Abs(2 * (d * t) - 2 * (r * d))
  {
    assert 2 * d * (t - r) == 2 * (d * t) - 2 * (r * d);
    if t < r {
      assert 2 * d * (r - t) == -(2 * d * (t - r));
      NonNegative(2 * d, r - t);
    } else {
      NonNegative(2 * d, t - r);
    }
  }

  lemma NonNegative(a: nat, b: nat)
    ensures 0 <= a * b
  {
  }

  /** An error below one whole unit is no error. */
  lemma ErrorVanishes(d: nat, k: nat, e: nat)
    requires 0 < k <= d && 2 * d * e <= k + d
    ensures e <= 1 && (k < d ==> e == 0)
  {
    CancelFactor(2 * d, e, 2);
    if k < d {
      CancelFactor(2 * d, e, 1);
    }
  }

  /** The price of reach r, read back as reach, misses r by at most half of (scale / rate + 1). */
  lemma PriceReachRoundTrip(r: nat, objective: Objective, filters: Filters, config: PricingConfig)
    requires objective in config.objectiveMult && 0 < Rate(objective, filters, config)
    ensures var d := Rate(objective, filters, config);
            var price := SlotPrice(r, objective, filters, config);
            price.Ok? &&
            var back := SlotTargetReach(price.value, objective, filters, config);
            back.Ok? &&
            2 * d * Abs(back.value - r) <= PRICE_SCALE + d &&
            (PRICE_SCALE <= d ==> back.value == r)
  {
    var d := Rate(objective, filters, config);
    var p := SlotPrice(r, objective, filters, config).value;
    var t := SlotTargetReach(p, objective, filters, config).value;
    RoundTripError(r, d, PRICE_SCALE, p, t);
    if PRICE_SCALE == d {
      ExactQuotient(r, d, p);
      ExactQuotient(p, d, t);
    } else if PRICE_SCALE < d {
      ErrorVanishes(d, PRICE_SCALE, Abs(t - r));
    }
  }

  /** The other way round: the reach a price buys, priced again, misses by at most half of (rate / scale + 1). */
  lemma ReachPriceRoundTrip(price: nat, objective: Objective, filters: Filters, config: PricingConfig)
    requires objective in config.objectiveMult && 0 < Rate(objective, filters, config)
    ensures var d := Rate(objective, filters, config);
            var reach := SlotTargetReach(price, objective, filters, config);
            reach.Ok? &&
            var back := SlotPrice(reach.value, objective, filters, config);
            back.Ok? &&
            2 * PRICE_SCALE * Abs(back.value - price) <= PRICE_SCALE + d &&
            (d <= PRICE_SCALE ==> back.value == price)
  {
    var d := Rate(objective, filters, config);
    var t := SlotTargetReach(price, objective, filters, config).value;
    var p := SlotPrice(t, objective, filters, config).value;
    RoundTripError(price, PRICE_SCALE, d, t, p);
    if PRICE_SCALE == d {
      ExactQuotient(price, d, t);
      ExactQuotient(t, d, p);
    } else if d < PRICE_SCALE {
      ErrorVanishes(PRICE_SCALE, d, Abs(p - price));
    }
  }

  lemma Expand(d: int, a: int, q: int)
    ensures d * (2 * a - 1) == 2 * (a * d) - d && d * (2 * a + 2) == 2 * (a * d) + 2 * d && d * (2 * q) == 2 * (d * q)
  {
  }

  lemma ExactQuotient(a: nat, d: nat, q: int)
    requires 0 < d && RoundsHalfUp(a * d, d, q)
    ensures q == a
  {
    Expand(d, a, q);
    CancelFactor(d, 2 * a - 1, 2 * q);
    CancelFactor(d, 2 * q, 2 * a + 2);
  }

  // ---- Fee split and settlement ----

  datatype Split = Split(fee: nat, take: int)

  /** The take is what the fee leaves; it is never rounded on its own. */
  function SplitFee(price: nat, takeRate: Percent): Split
  {
    var fee := DivRound(price * (100 - takeRate), 100);
    Split(fee, price - fee)
  }

  /** The promoter keeps what the take rate leaves, rounded half up, and the platform takes the rest of the price. */
  lemma SplitIsExact(price: nat, takeRate: Percent)
    ensures RoundsHalfUp(price * (100 - takeRate), 100, SplitFee(price, takeRate).fee)
    ensures SplitFee(price, takeRate).fee + SplitFee(price, takeRate).take == price
  {
  }

  lemma FeeWithinPrice(price: nat, takeRate: Percent)
    ensures 0 <= SplitFee(price, takeRate).take <= price
    ensures SplitFee(price, takeRate).fee <= price
  {
    assert price * (100 - takeRate) <= price * 100;
    assert RoundsHalfUp(price * 100, 100, price);
    RoundingIsMonotone(price * (100 - takeRate), 100, SplitFee(price, takeRate).fee, price * 100, 100, price);
  }

  datatype SettlementConfig = SettlementConfig(takeRate: Percent, threshold: Percent)

  datatype Settlement = Settlement(meetsThreshold: bool, delivered: nat, fee: nat, take: int, retained: int)

  function SettleDelivery(gross: int, verified: int, promised: int, config: SettlementConfig)
    : Result<Settlement, PricingError>
  {
    if promised <= 0 then Err(BadPromised)
    else if verified < 0 then Err(BadVerified)
    else if gross < 0 then Err(BadGross)
    else
      var delivered := Delivered(gross, verified, promised);
      var split := SplitFee(delivered, config.takeRate);
      Ok(Settlement(config.threshold * promised <= verified * 100, delivered, split.fee, split.take, gross - delivered))
  }

  /** The gross earned by verified reach; reach beyond the promise earns nothing more. */
  function Delivered(gross: nat, verified: nat, promised: nat): nat
    requires 0 < promised
  {
    DivRound(gross * Min(verified, promised), promised)
  }

  lemma DeliveredIsMonotone(gross: nat, v1: nat, v2: nat, promised: nat)
    requires 0 < promised && v1 <= v2
    ensures Delivered(gross, v1, promised) <= Delivered(gross, v2, promised) <= gross
    ensures promised <= v1 ==> Delivered(gross, v1, promised) == gross
  {
    var e1, e2 := Min(v1, promised), Min(v2, promised);
    Scale(gross, e1, e2, promised);
    RoundingIsMonotone(gross * e1, promised, Delivered(gross, v1, promised), gross * e2, promised,
      Delivered(gross, v2, promised));
    Scale(gross, e2, promised, promised);
    assert RoundsHalfUp(gross * promised, promised, gross);
    RoundingIsMonotone(gross * e2, promised, Delivered(gross, v2, promised), gross * promised, promised, gross);
    if promised <= v1 {
      ExactQuotient(gross, promised, Delivered(gross, v1, promised));
    }
  }

  lemma Scale(g: nat, x: nat, y: nat, p: nat)
    requires x <= y
    ensures g * x <= g * y && (g * x) * p <= (g * y) * p
  {
  }

  lemma FeeIsMonotone(p1: nat, p2: nat, takeRate: Percent)
    requires p1 <= p2
    ensures SplitFee(p1, takeRate).fee <= SplitFee(p2, takeRate).fee
  {
    var k := 100 - takeRate;
    ScaleBoth(p1, p2, k);
    RoundingIsMonotone(p1 * k, 100, DivRound(p1 * k, 100), p2 * k, 100, DivRound(p2 * k, 100));
  }

  /**
   * What a settlement comes to: refused for a promise, a verified reach or a gross that makes no sense; otherwise the
   * share of the gross that was delivered, rounded half up and split at the take rate, and whether the delivery reaches
   * the threshold percentage of the promise.
   */
  lemma SettlementIsProRata(gross: int, verified: int, promised: int, config: SettlementConfig)
    ensures var r := SettleDelivery(gross, verified, promised, config);
            && (r.Ok? <==> 0 < promised && 0 <= verified && 0 <= gross)
            && (r.Ok? ==>
                  var s := r.value;
                  && RoundsHalfUp(gross * (if verified < promised then verified else promised), promised, s.delivered)
                  && RoundsHalfUp(s.delivered * (100 - config.takeRate), 100, s.fee)
                  && s.fee + s.take == s.delivered && s.delivered + s.retained == gross
                  && (s.meetsThreshold <==> config.threshold * promised <= 100 * verified))
  {
  }

  /**
   * Settlement splits the gross exactly, each part within it, and the pay grows with the verified reach up to the
   * promise.
   */
  lemma SettlementConserves(gross: nat, v1: nat, v2: nat, promised: nat, config: SettlementConfig)
    requires 0 < promised && v1 <= v2
    ensures var s1 := SettleDelivery(gross, v1, promised, config);
            var s2 := SettleDelivery(gross, v2, promised, config);
            s1.Ok? && s2.Ok? &&
            s1.value.fee + s1.value.take + s1.value.retained == gross &&
            0 <= s1.value.fee <= gross && 0 <= s1.value.take <= gross && 0 <= s1.value.retained <= gross &&
            s1.value.delivered <= s2.value.delivered && s1.value.fee <= s2.value.fee &&
            (promised <= v1 ==> s1.value.retained == 0 && s1.value.fee == s2.value.fee) &&
            (s1.value.meetsThreshold ==> s2.value.meetsThreshold)
  {
    DeliveredIsMonotone(gross, v1, v2, promised);
    DeliveredIsMonotone(gross, v2, v2, promised);
    var d1, d2 := Delivered(gross, v1, promised), Delivered(gross, v2, promised);
    FeeWithinPrice(d1, config.takeRate);
    FeeIsMonotone(d1, d2, config.takeRate);
  }

  /** An approved post moves at least the threshold share of its gross out of escrow. */
  lemma ApprovedPaysThreshold(gross: nat, verified: nat, promised: nat, config: SettlementConfig)
    requires 0 < promised && config.threshold * promised <= verified * 100
    ensures DivRound(gross * config.threshold, 100) <= Delivered(gross, verified, promised)
  {
    var e := Min(verified, promised);
    assert config.threshold * promised <= 100 * promised;
    assert config.threshold * promised <= e * 100;
    assert gross * (config.threshold * promised) <= gross * (e * 100);
    assert (gross * config.threshold) * promised == gross * (config.threshold * promised);
    assert (gross * e) * 100 == gross * (e * 100);
    RoundingIsMonotone(gross * config.threshold, 100, DivRound(gross * config.threshold, 100),
                       gross * e, promised, Delivered(gross, verified, promised));
  }

  // ---- The floor an offer advertises ----

  /** offerDetail: the whole-run fee at the delivery threshold. */
  function AdvertisedFloor(offerFee: nat, posts: nat, threshold: Percent): (floor: nat)
    ensures RoundsHalfUp(offerFee * posts * threshold, 100, floor)
  {
    DivRound(offerFee * posts * threshold, 100)
  }

  lemma Distribute(a: int, b: int, c: int)
    ensures (2 * a - 100) * c == 2 * (a * c) - 100 * c
    ensures (2 * a + 100) * c == 2 * (a * c) + 100 * c
  {
  }

  lemma ScaleBoth(a: int, b: int, c: nat)
    requires a <= b
    ensures a * c <= b * c
  {
  }

  /** Rounding to hundredths, scaled by k. */
  lemma RoundTimes(n: int, r: int, k: nat)
    requires RoundsHalfUp(n, 100, r)
    ensures 2 * (n * k) - 100 * k <= 200 * (r * k) <= 2 * (n * k) + 100 * k
  {
    ScaleBoth(2 * n - 100, 200 * r, k);
    ScaleBoth(200 * r, 2 * n + 100, k);
    Distribute(n, 0, k);
    assert (200 * r) * k == 200 * (r * k);
  }

  lemma SwapFactors(g: int, t: int, k: int)
    ensures (g * t) * k == (g * k) * t
  {
  }

  /** Rounding (g t / 100) * k / 100 and (g k / 100) * t / 100 gives results at most one apart. */
  lemma NestedRounding(g: nat, k: nat, t: nat, x: nat, y: nat, fee: nat, floor: nat)
    requires k <= 100 && t <= 100
    requires RoundsHalfUp(g * t, 100, x) && RoundsHalfUp(x * k, 100, y)
    requires RoundsHalfUp(g * k, 100, fee) && RoundsHalfUp(fee * t, 100, floor)
    ensures floor <= y + 1
  {
    RoundTimes(g * t, x, k);
    RoundTimes(g * k, fee, t);
    SwapFactors(g, t, k);
    NestedBounds((g * t) * k, k, t, x * k, fee * t, y, floor);
  }

  lemma NestedBounds(m: int, k: nat, t: nat, xk: int, ft: int, y: int, floor: int)
    requires k <= 100 && t <= 100
    requires 2 * m - 100 * k <= 200 * xk && 200 * ft <= 2 * m + 100 * t
    requires 2 * xk - 100 < 200 * y && 200 * floor <= 2 * ft + 100
    ensures floor <= y + 1
  {
  }

  /**
   * With one rate configuration from offer to approval, an approved post of a one-post offer pays at most one kobo less
   * than the floor its detail screen shows.
   */
  lemma PayMeetsAdvertisedFloor(gross: nat, verified: nat, promised: nat, config: SettlementConfig)
    requires 0 < promised && config.threshold * promised <= verified * 100
    ensures var offerFee := SplitFee(gross, config.takeRate).fee;
            var settled := SettleDelivery(gross, verified, promised, config);
            settled.Ok? && AdvertisedFloor(offerFee, 1, config.threshold) <= settled.value.fee + 1
  {
    FeeIsOfDelivered(gross, verified, promised, config);
    ApprovedFee(gross, verified, promised, config);
    FloorAgainstThresholdPay(gross, config.takeRate, config.threshold);
  }

  /** An approvable delivery earns at least what the threshold share of its gross would. */
  lemma ApprovedFee(gross: nat, verified: nat, promised: nat, config: SettlementConfig)
    requires 0 < promised && config.threshold * promised <= verified * 100
    ensures SplitFee(DivRound(gross * config.threshold, 100), config.takeRate).fee
            <= SplitFee(Delivered(gross, verified, promised), config.takeRate).fee
  {
    ApprovedPaysThreshold(gross, verified, promised, config);
    FeeIsMonotone(DivRound(gross * config.threshold, 100), Delivered(gross, verified, promised), config.takeRate);
  }

  lemma FeeIsOfDelivered(gross: nat, verified: nat, promised: nat, config: SettlementConfig)
    requires 0 < promised
    ensures var settled := SettleDelivery(gross, verified, promised, config);
            settled.Ok? && settled.value.fee == SplitFee(Delivered(gross, verified, promised), config.takeRate).fee
  {
  }

  lemma FloorAgainstThresholdPay(gross: nat, takeRate: Percent, t: Percent)
    ensures AdvertisedFloor(SplitFee(gross, takeRate).fee, 1, t) <= SplitFee(DivRound(gross * t, 100), takeRate).fee + 1
  {
    var fee, x := SplitFee(gross, takeRate).fee, DivRound(gross * t, 100);
    FloorOfOne(fee, t);
    FeeRounds(gross, takeRate);
    FeeRounds(x, takeRate);
    NestedRounding(gross, 100 - takeRate, t, x, SplitFee(x, takeRate).fee, fee, DivRound(fee * t, 100));
  }

  lemma FeeRounds(price: nat, takeRate: Percent)
    ensures RoundsHalfUp(price * (100 - takeRate), 100, SplitFee(price, takeRate).fee)
  {
  }

  lemma FloorOfOne(fee: nat, t: Percent)
    ensures AdvertisedFloor(fee, 1, t) == DivRound(fee * t, 100)
  {
    assert fee * 1 == fee;
  }

  /** The missing kobo is real: gross 2, a 60% take, threshold 50%, half the promise delivered. */
  lemma AdvertisedFloorCanMissByOne()
    ensures var settled := SettleDelivery(2, 1, 2, SettlementConfig(60, 50));
            settled.Ok? && settled.value.meetsThreshold
            && AdvertisedFloor(SplitFee(2, 60).fee, 1, 50) == settled.value.fee + 1
  {
    assert SettleDelivery(2, 1, 2, SettlementConfig(60, 50)).value.delivered == 1;
  }

  /** What the promoter is paid for a post. */
  function PayFor(gross: nat, verified: nat, promised: nat, config: SettlementConfig): nat
    requires 0 < promised
  {
    SettleDelivery(gross, verified, promised, config).value.fee
  }

  predicate MayBeApproved(gross: nat, verified: nat, promised: nat, config: SettlementConfig)
    requires 0 < promised
  {
    SettleDelivery(gross, verified, promised, config).value.meetsThreshold
  }

  /** The least verified reach an approval accepts: the threshold share of the promise, rounded up. */
  function LeastApprovable(promised: nat, threshold: Percent): nat { (threshold * promised + 99) / 100 }

  lemma LeastIsApprovable(gross: nat, verified: nat, promised: nat, config: SettlementConfig)
    requires 0 < promised
    ensures MayBeApproved(gross, verified, promised, config)
            <==> LeastApprovable(promised, config.threshold) <= verified
  {
    var n := config.threshold * promised;
    assert n + 99 == 100 * ((n + 99) / 100) + (n + 99) % 100;
  }

  lemma LeastPaysLeast(gross: nat, verified: nat, promised: nat, config: SettlementConfig)
    requires 0 < promised && MayBeApproved(gross, verified, promised, config)
    ensures PayFor(gross, LeastApprovable(promised, config.threshold), promised, config)
            <= PayFor(gross, verified, promised, config)
  {
    LeastIsApprovable(gross, verified, promised, config);
    DeliveredIsMonotone(gross, LeastApprovable(promised, config.threshold), verified, promised);
    FeeIsMonotone(Delivered(gross, LeastApprovable(promised, config.threshold), promised),
                  Delivered(gross, verified, promised), config.takeRate);
  }

  /** The pay for a series of posts of one gross and promise, each with its own verified reach. */
  function TotalPay(gross: nat, verified: seq<nat>, promised: nat, config: SettlementConfig): nat
    requires 0 < promised
  {
    if verified == [] then 0
    else TotalPay(gross, verified[..|verified| - 1], promised, config)
         + PayFor(gross, verified[|verified| - 1], promised, config)
  }

  predicate AllMayBeApproved(gross: nat, verified: seq<nat>, promised: nat, config: SettlementConfig)
    requires 0 < promised
  {
    forall i :: 0 <= i < |verified| ==> MayBeApproved(gross, verified[i], promised, config)
  }

  lemma {:induction false} TotalPayAtLeast(gross: nat, verified: seq<nat>, promised: nat, config: SettlementConfig,
                                           least: nat)
    requires 0 < promised && forall i :: 0 <= i < |verified| ==> least <= PayFor(gross, verified[i], promised, config)
    ensures Product(|verified|, least) <= TotalPay(gross, verified, promised, config)
    decreases |verified|
  {
    if verified != [] {
      var n := |verified| - 1;
      assert forall i :: 0 <= i < n ==> verified[..n][i] == verified[i];
      TotalPayAtLeast(gross, verified[..n], promised, config, least);
      OneMore(n, least);
    }
  }

  lemma OneMore(n: int, x: int)
    ensures (n + 1) * x == n * x + x
  {
  }

  lemma TotalPayIsLeast(gross: nat, verified: seq<nat>, promised: nat, config: SettlementConfig)
    requires 0 < promised && AllMayBeApproved(gross, verified, promised, config)
    ensures Product(|verified|, PayFor(gross, LeastApprovable(promised, config.threshold), promised, config))
            <= TotalPay(gross, verified, promised, config)
  {
    forall i | 0 <= i < |verified|
      ensures PayFor(gross, LeastApprovable(promised, config.threshold), promised, config)
              <= PayFor(gross, verified[i], promised, config)
    {
      LeastPaysLeast(gross, verified[i], promised, config);
    }
    TotalPayAtLeast(gross, verified, promised, config,
      PayFor(gross, LeastApprovable(promised, config.threshold), promised, config));
  }

  function Same(v: nat, n: nat): seq<nat> { seq(n, i => v) }

  lemma {:induction false} PayForTheSame(gross: nat, v: nat, n: nat, promised: nat, config: SettlementConfig)
    requires 0 < promised
    ensures TotalPay(gross, Same(v, n), promised, config) == n * PayFor(gross, v, promised, config)
  {
    if n > 0 {
      assert Same(v, n)[..n - 1] == Same(v, n - 1);
      PayForTheSame(gross, v, n - 1, promised, config);
      OneMore(n - 1, PayFor(gross, v, promised, config));
    }
  }

  /** However the posts turn out, as long as each may be approved they pay at least this much together. */
  ghost predicate AlwaysPays(gross: nat, promised: nat, n: nat, floor: int, config: SettlementConfig)
    requires 0 < promised
  {
    forall verified: seq<nat> :: |verified| == n && AllMayBeApproved(gross, verified, promised, config) ==>
      floor <= TotalPay(gross, verified, promised, config)
  }

  lemma AllTheSame(gross: nat, v: nat, n: nat, promised: nat, config: SettlementConfig)
    requires 0 < promised && LeastApprovable(promised, config.threshold) <= v
    ensures |Same(v, n)| == n && AllMayBeApproved(gross, Same(v, n), promised, config)
    ensures TotalPay(gross, Same(v, n), promised, config) == n * PayFor(gross, v, promised, config)
  {
    LeastIsApprovable(gross, v, promised, config);
    PayForTheSame(gross, v, n, promised, config);
  }

  /**
   * The screen shows a floor for all `asked` posts of the campaign; the slot the promoter then takes carries `posts` of
   * them, fewer when an earlier promoter was pulled after delivering some. Whether the posts always earn that floor can
   * be told in advance, whatever the rates were when the offer was made (its stored fee), when the floor was shown and
   * when the posts are approved: exactly when the least delivery an approval accepts earns it.
   */
  lemma FloorIsMetExactly(gross: nat, promised: nat, asked: nat, posts: nat, offerFee: nat, shown: Percent,
                          config: SettlementConfig)
    requires 0 < promised
    ensures AlwaysPays(gross, promised, posts, AdvertisedFloor(offerFee, asked, shown), config)
            <==> AdvertisedFloor(offerFee, asked, shown)
                 <= posts * PayFor(gross, LeastApprovable(promised, config.threshold), promised, config)
  {
    var least, floor := LeastApprovable(promised, config.threshold), AdvertisedFloor(offerFee, asked, shown);
    AllTheSame(gross, least, posts, promised, config);
    if floor <= posts * PayFor(gross, least, promised, config) {
      forall verified: seq<nat> | |verified| == posts && AllMayBeApproved(gross, verified, promised, config)
        ensures floor <= TotalPay(gross, verified, promised, config)
      {
        TotalPayIsLeast(gross, verified, promised, config);
      }
    }
  }

  /** Some way to deliver the posts earns the floor. */
  ghost predicate MayEarn(gross: nat, promised: nat, n: nat, floor: int, config: SettlementConfig)
    requires 0 < promised
  {
    exists verified: seq<nat> :: |verified| == n && AllMayBeApproved(gross, verified, promised, config)
                                 && floor <= TotalPay(gross, verified, promised, config)
  }

  lemma FullDeliveryPaysMost(gross: nat, verified: nat, promised: nat, config: SettlementConfig)
    requires 0 < promised
    ensures PayFor(gross, verified, promised, config) <= SplitFee(gross, config.takeRate).fee
    ensures promised <= verified ==> PayFor(gross, verified, promised, config) == SplitFee(gross, config.takeRate).fee
  {
    FeeIsOfDelivered(gross, verified, promised, config);
    WholeIsDelivered(gross, Max(verified, promised), promised);
    DeliveredIsMonotone(gross, verified, Max(verified, promised), promised);
    FeeIsMonotone(Delivered(gross, verified, promised), gross, config.takeRate);
  }

  lemma WholeIsDelivered(gross: nat, verified: nat, promised: nat)
    requires 0 < promised <= verified
    ensures Delivered(gross, verified, promised) == gross
  {
    ExactQuotient(gross, promised, Delivered(gross, verified, promised));
  }

  lemma {:induction false} TotalPayAtMost(gross: nat, verified: seq<nat>, promised: nat, config: SettlementConfig)
    requires 0 < promised
    ensures TotalPay(gross, verified, promised, config) <= Product(|verified|, SplitFee(gross, config.takeRate).fee)
    decreases |verified|
  {
    if verified != [] {
      var n := |verified| - 1;
      TotalPayAtMost(gross, verified[..n], promised, config);
      FullDeliveryPaysMost(gross, verified[n], promised, config);
      OneMore(n, SplitFee(gross, config.takeRate).fee);
    }
  }

  /** And whether they can earn it at all: exactly when delivering every one of them in full does. */
  lemma FloorIsReachableExactly(gross: nat, promised: nat, asked: nat, posts: nat, offerFee: nat, shown: Percent,
                                config: SettlementConfig)
    requires 0 < promised
    ensures MayEarn(gross, promised, posts, AdvertisedFloor(offerFee, asked, shown), config)
            <==> AdvertisedFloor(offerFee, asked, shown) <= posts * SplitFee(gross, config.takeRate).fee
  {
    var floor, best := AdvertisedFloor(offerFee, asked, shown), Same(promised, posts);
    LeastWithinPromise(promised, config.threshold);
    AllTheSame(gross, promised, posts, promised, config);
    FullDeliveryPaysMost(gross, promised, promised, config);
    forall verified: seq<nat> | |verified| == posts
      ensures TotalPay(gross, verified, promised, config) <= posts * SplitFee(gross, config.takeRate).fee
    {
      TotalPayAtMost(gross, verified, promised, config);
    }
    if floor <= posts * SplitFee(gross, config.takeRate).fee {
      assert floor <= TotalPay(gross, best, promised, config);
    }
  }

  lemma LeastWithinPromise(promised: nat, t: Percent)
    ensures LeastApprovable(promised, t) <= promised
  {
    ScaleBoth(t, 100, promised);
  }

  /**
   * Five posts asked, 100 kobo each at a 30% take: the screen shows 175, and every way to deliver all five earns it.
   * A slot with two of them left pays 140 delivered in full, so no way to deliver those two does.
   */
  lemma ShortSlotMissesFloor()
    ensures var config := SettlementConfig(30, 50);
            && AdvertisedFloor(SplitFee(100, 30).fee, 5, 50) == 175
            && AlwaysPays(100, 100, 5, 175, config) && !MayEarn(100, 100, 2, 175, config)
            && AllMayBeApproved(100, [100, 100], 100, config) && TotalPay(100, [100, 100], 100, config) == 140
  {
    var config := SettlementConfig(30, 50);
    assert SplitFee(100, 30).fee == 70;
    assert AdvertisedFloor(70, 5, 50) == 175;
    assert LeastApprovable(100, 50) == 50 && Delivered(100, 50, 100) == 50;
    assert PayFor(100, 50, 100, config) == 35;
    FloorIsMetExactly(100, 100, 5, 5, 70, 50, config);
    FloorIsReachableExactly(100, 100, 5, 2, 70, 50, config);
    FullDeliveryPaysMost(100, 100, 100, config);
    assert Same(100, 2) == [100, 100];
    LeastWithinPromise(100, 50);
    AllTheSame(100, 100, 2, 100, config);
  }

  lemma ManyBounds(n: nat, m: int, k: nat, t: nat, xk: int, ft: int, y: int, floor: int)
    requires k <= 100 && t <= 100
    requires 2 * m - 100 * k <= 200 * xk && 200 * ft <= 2 * m + 100 * t
    requires 2 * xk - 100 < 200 * y && 200 * floor <= 2 * (n * ft) + 100
    ensures 2 * (floor - n * y) <= 3 * n
  {
    ScaleBoth(4 * m - 200 * k - 20_000 + 1, 40_000 * y, n);
    ScaleBoth(400 * ft, 4 * m + 200 * t, n);
    ScaleBoth(k, 100, n);
    ScaleBoth(t, 100, n);
    Spread(n, m, k, t, ft, y);
  }

  lemma Spread(n: nat, m: int, k: nat, t: nat, ft: int, y: int)
    ensures (4 * m - 200 * k - 20_000 + 1) * n == 4 * (m * n) - 200 * (k * n) - 20_000 * n + n
    ensures (40_000 * y) * n == 40_000 * (n * y) && (400 * ft) * n == 400 * (n * ft)
    ensures (4 * m + 200 * t) * n == 4 * (m * n) + 200 * (t * n)
  {
  }

  lemma LeastPaysThreshold(gross: nat, promised: nat, config: SettlementConfig)
    requires 0 < promised
    ensures SplitFee(DivRound(gross * config.threshold, 100), config.takeRate).fee
            <= PayFor(gross, LeastApprovable(promised, config.threshold), promised, config)
  {
    var v := LeastApprovable(promised, config.threshold);
    LeastReaches(promised, config.threshold);
    ApprovedFee(gross, v, promised, config);
    FeeIsOfDelivered(gross, v, promised, config);
  }

  lemma LeastReaches(promised: nat, t: Percent)
    ensures t * promised <= LeastApprovable(promised, t) * 100
  {
  }

  lemma FloorOfMany(gross: nat, n: nat, takeRate: Percent, t: Percent)
    ensures 2 * (AdvertisedFloor(SplitFee(gross, takeRate).fee, n, t)
                 - n * SplitFee(DivRound(gross * t, 100), takeRate).fee) <= 3 * n
  {
    var k, fee, x := 100 - takeRate, SplitFee(gross, takeRate).fee, DivRound(gross * t, 100);
    RoundTimes(gross * t, x, k);
    RoundTimes(gross * k, fee, t);
    SwapFactors(gross, t, k);
    Reorder(fee, n, t);
    ManyBounds(n, (gross * t) * k, k, t, x * k, fee * t, SplitFee(x, takeRate).fee, AdvertisedFloor(fee, n, t));
  }

  lemma Reorder(a: int, b: int, c: int)
    ensures a * b * c == b * (a * c)
  {
  }

  lemma LeastNearFloor(gross: nat, promised: nat, n: nat, config: SettlementConfig)
    requires 0 < promised
    ensures 2 * (AdvertisedFloor(SplitFee(gross, config.takeRate).fee, n, config.threshold)
                 - Product(n, PayFor(gross, LeastApprovable(promised, config.threshold), promised, config))) <= 3 * n
  {
    var pay := SplitFee(DivRound(gross * config.threshold, 100), config.takeRate).fee;
    var least := PayFor(gross, LeastApprovable(promised, config.threshold), promised, config);
    LeastPaysThreshold(gross, promised, config);
    FloorOfMany(gross, n, config.takeRate, config.threshold);
    FloorToTotal(n, AdvertisedFloor(SplitFee(gross, config.takeRate).fee, n, config.threshold), pay, least, n * least);
  }

  /**
   * With one rate configuration throughout and a slot of as many posts as were shown, n approved posts fall short of
   * the floor by at most 3n/2 kobo.
   */
  lemma ManyPostsNearFloor(gross: nat, promised: nat, verified: seq<nat>, config: SettlementConfig)
    requires 0 < promised && AllMayBeApproved(gross, verified, promised, config)
    ensures 2 * (AdvertisedFloor(SplitFee(gross, config.takeRate).fee, |verified|, config.threshold)
                 - TotalPay(gross, verified, promised, config)) <= 3 * |verified|
  {
    TotalPayIsLeast(gross, verified, promised, config);
    LeastNearFloor(gross, promised, |verified|, config);
  }

  /** Floors of parts add up to the floor of the whole, to within a kobo. */
  lemma FloorsAdd(fee: nat, n: nat, m: nat, t: Percent)
    ensures AdvertisedFloor(fee, n + m, t) <= AdvertisedFloor(fee, n, t) + AdvertisedFloor(fee, m, t) + 1
  {
    Spread3(fee, n, m, t);
  }

  lemma Spread3(fee: nat, n: nat, m: nat, t: nat)
    ensures fee * (n + m) * t == fee * n * t + fee * m * t
  {
    assert fee * (n + m) == fee * n + fee * m;
    OneOver(fee * n, fee * m, t);
  }

  lemma OneOver(a: int, b: int, c: int)
    ensures (a + b) * c == a * c + b * c
  {
  }

  /**
   * A slot of fewer posts than were asked falls short by at most 3/2 kobo a post, one more, and the floor of the posts
   * it does not carry.
   */
  lemma ShortSlotNearFloor(gross: nat, promised: nat, verified: seq<nat>, asked: nat, config: SettlementConfig)
    requires 0 < promised && AllMayBeApproved(gross, verified, promised, config) && |verified| <= asked
    ensures var fee := SplitFee(gross, config.takeRate).fee;
            2 * (AdvertisedFloor(fee, asked, config.threshold) - TotalPay(gross, verified, promised, config))
            <= 3 * |verified| + 2 * AdvertisedFloor(fee, asked - |verified|, config.threshold) + 2
  {
    ManyPostsNearFloor(gross, promised, verified, config);
    FloorsAdd(SplitFee(gross, config.takeRate).fee, |verified|, asked - |verified|, config.threshold);
  }

  lemma FloorToTotal(n: nat, floor: int, pay: int, least: int, total: int)
    requires 2 * (floor - n * pay) <= 3 * n && pay <= least && n * least <= total
    ensures 2 * (floor - total) <= 3 * n
  {
    ScaleBoth(pay, least, n);
  }

  /** A kobo a post is not enough: two posts of 27 kobo at a 24% take and an 87% threshold fall short by three. */
  lemma TwoPostsCanMissByThree()
    ensures var config := SettlementConfig(24, 87);
            && AllMayBeApproved(27, [87, 87], 100, config)
            && AdvertisedFloor(SplitFee(27, 24).fee, 2, 87) == TotalPay(27, [87, 87], 100, config) + 3
  {
    var config := SettlementConfig(24, 87);
    assert SplitFee(27, 24).fee == 21;
    assert Delivered(27, 87, 100) == 23;
    assert PayFor(27, 87, 100, config) == 17;
    assert [87, 87][..1] == [87] && [87][..0] == [];
    assert TotalPay(27, [87], 100, config) == 17;
  }

  /** Once the take rate has moved the floor can be missed by more: offered at 30%, approved at 50%, half delivered. */
  lemma RateChangeMissesFloor()
    ensures MayBeApproved(100, 50, 100, SettlementConfig(50, 50))
    ensures AdvertisedFloor(SplitFee(100, 30).fee, 1, 50) == PayFor(100, 50, 100, SettlementConfig(50, 50)) + 10
  {
    assert Delivered(100, 50, 100) == 50;
  }

  /** A higher take rate never raises the fee, and lowers it as soon as it takes a whole kobo more. */
  lemma FeeFallsWithTakeRate(gross: nat, r1: Percent, r2: Percent)
    requires r1 <= r2
    ensures SplitFee(gross, r2).fee <= SplitFee(gross, r1).fee
    ensures 100 <= gross * (r2 - r1) ==> SplitFee(gross, r2).fee < SplitFee(gross, r1).fee
  {
    assert gross * (100 - r1) == gross * (100 - r2) + gross * (r2 - r1);
    assert 0 <= gross * (r2 - r1);
  }

  // ---- Sizing and splitting an exact price ----

  datatype Size = Size(totalReach: nat, slots: nat)

  /** How many promoter slots a price buys: the reach it buys over the reach of one slot, at least one. */
  function SizeFromPrice(price: nat, objective: Objective, filters: Filters, reachPerSlotAllPosts: int,
                         config: PricingConfig)
    : Result<Size, PricingError>
  {
    match SlotTargetReach(price, objective, filters, config)
    case Err(e) => Err(e)
    case Ok(totalReach) => Ok(Size(totalReach, Max(1, DivRound(totalReach, Max(1, reachPerSlotAllPosts)))))
  }

  /** The derived slots carry the bought reach to within half a slot, unless a single slot is the minimum. */
  lemma SizeTracksReach(price: nat, objective: Objective, filters: Filters, reachPerSlotAllPosts: int,
                        config: PricingConfig)
    requires objective in config.objectiveMult
    ensures var size := SizeFromPrice(price, objective, filters, reachPerSlotAllPosts, config);
            && size.Ok? && SlotTargetReach(price, objective, filters, config) == Ok(size.value.totalReach)
            && NearestFrom1(size.value.totalReach, Max(1, reachPerSlotAllPosts), size.value.slots)
            && (size.value.slots == 1
                || 2 * Abs(size.value.slots * Max(1, reachPerSlotAllPosts) - size.value.totalReach)
                   <= Max(1, reachPerSlotAllPosts))
  {
    var basis := Max(1, reachPerSlotAllPosts);
    var size := SizeFromPrice(price, objective, filters, reachPerSlotAllPosts, config).value;
    OneOrMore(size.totalReach, basis, DivRound(size.totalReach, basis));
    assert basis * size.slots == size.slots * basis;
  }

  /** The whole number nearest to n / d, an exact half going up, but at least 1. */
  predicate NearestFrom1(n: int, d: int, r: int)
  {
    if 2 * n < 3 * d then r == 1 else RoundsHalfUp(n, d, r)
  }

  lemma OneOrMore(n: nat, d: nat, r: nat)
    requires 0 < d && RoundsHalfUp(n, d, r)
    ensures NearestFrom1(n, d, Max(1, r))
  {
    if 2 * n < 3 * d {
      CancelFactor(2 * d, r, 2);
    } else {
      CancelFactor(2 * d, 1, r);
    }
  }

  /** perPostUnitPrices: equal shares, the first `remainder` of them one kobo larger. */
  function PerPostUnitPrices(price: nat, slots: int, posts: int): seq<int>
  {
    var units := Max(1, slots) * Max(1, posts);
    UnitPricesPositive(slots, posts);
    var base := price / units;
    var remainder := price - base * units;
    seq(units, i => if i < remainder then base + 1 else base)
  }

  lemma UnitPricesPositive(slots: int, posts: int)
    ensures 0 < Max(1, slots) * Max(1, posts)
  {
  }

  function Identity(x: int): int { x }

  lemma {:induction false} SumOfStep(base: nat, remainder: nat, n: nat)
    requires remainder <= n
    ensures Sum(Identity, seq(n, i => if i < remainder then base + 1 else base)) == n * base + remainder
    decreases n
  {
    var s: seq<int> := seq(n, i => if i < remainder then base + 1 else base);
    if n > 0 {
      var r := Min(remainder, n - 1);
      assert s[..n - 1] == seq(n - 1, i => if i < r then base + 1 else base);
      SumOfStep(base, r, n - 1);
      assert n * base == (n - 1) * base + base;
    }
  }

  lemma WholeAndRest(price: nat, units: nat)
    requires 0 < units
    ensures var base := price / units;
            0 <= price - base * units < units && price == units * base + (price - base * units)
  {
    var base := price / units;
    assert price == units * base + price % units;
    assert base * units == units * base;
  }

  /** The unit prices add up to the exact price, are at most a kobo apart, and the larger come first. */
  lemma UnitPricesAreExact(price: nat, slots: int, posts: int)
    ensures var us := PerPostUnitPrices(price, slots, posts);
            |us| == Max(1, slots) * Max(1, posts) &&
            Sum(Identity, us) == price &&
            forall i, j :: 0 <= i <= j < |us| ==> us[j] <= us[i] <= us[j] + 1
  {
    var units := Max(1, slots) * Max(1, posts);
    UnitPricesPositive(slots, posts);
    WholeAndRest(price, units);
    var base := price / units;
    var remainder := price - base * units;
    SumOfStep(base, remainder, units);
    assert PerPostUnitPrices(price, slots, posts) == seq(units, i => if i < remainder then base + 1 else base);
  }
}
