/**
 * src/modules/leaderboard/points-rules.ts: what an approved submission earns, and the cap per promoter and campaign.
 */
module Points {
  import opened Common

  datatype AwardType = DeliveryCompleted | DeliveredOnTime | QualityClean | OverDelivery

  datatype Award = Award(kind: AwardType, points: int)

  datatype Config = Config(
    completed: nat, onTime: nat, clean: nat, overBase: nat, overCapRatio: nat, cap: nat,
    creationHundredths: nat, distributionHundredths: nat)

  datatype Delivery = Delivery(verified: int, promised: int, onTime: bool, autoFlag: bool, isCreation: bool)

  // ---- What a delivery earns ----

  /** Math.round. */
  function Round(x: real): int { (x + 0.5).Floor }

  function Scale(points: int, hundredths: nat): int { Round((points * hundredths) as real / 100.0) }

  function MinReal(x: real, y: real): real { if x <= y then x else y }

  /** Points for exceeding the promise, before scaling. */
  function OverPoints(config: Config, verified: int, promised: int): int
  {
    if 0 < promised < verified then
      RatioPoints(config.overBase, config.overCapRatio, verified as real / promised as real) else 0
  }

  function RatioPoints(base: nat, top: nat, ratio: real): int
  {
    Round(base as real * (MinReal(ratio, top as real) - 1.0))
  }

  /** over_delivery_max of the leaderboard rules. */
  function OverMax(config: Config): int { config.overBase * (config.overCapRatio - 1) }

  function Multiplier(config: Config, d: Delivery): nat
  {
    if d.isCreation then config.creationHundredths else config.distributionHundredths
  }

  /** The points of each kind. */
  function PointsFor(config: Config, d: Delivery, kind: AwardType): int
  {
    match kind
    case DeliveryCompleted => Scale(config.completed, Multiplier(config, d))
    case DeliveredOnTime => if d.onTime then config.onTime else 0
    case QualityClean => if d.autoFlag then 0 else config.clean
    case OverDelivery => Scale(Max(0, OverPoints(config, d.verified, d.promised)), Multiplier(config, d))
  }

  lemma AddHalf(d: real, q: real, n: real, x: real)
    requires q * d == n && x == q + 0.5
    ensures d * x == n + 0.5 * d
  {
  }

  lemma AddOne(d: real, r: real, m: real, y: real)
    requires d * r == m && y == r + 1.0
    ensures d * y == m + d
  {
  }

  lemma TimesStrict(d: real, x: real, y: real, dx: real, dy: real)
    requires 0.0 < d && x < y && dx == d * x && dy == d * y
    ensures dx < dy
  {
  }

  lemma TimesAtMost(d: real, x: real, y: real, dx: real, dy: real)
    requires 0.0 < d && x <= y && dx == d * x && dy == d * y
    ensures dx <= dy
  {
  }

  lemma BetweenHalves(n: real, d: real, m: real, dx: real, dy: real)
    requires m <= dx < dy && dx == n + 0.5 * d && dy == m + d
    ensures 2.0 * n - d < 2.0 * m <= 2.0 * n + d
  {
  }

  lemma ScaledRound(d: real, q: real, r: real, x: real, y: real, n: real, m: real)
    requires 0.0 < d && x == q + 0.5 && y == r + 1.0 && r <= x < y && q * d == n && d * r == m
    ensures 2.0 * n - d < 2.0 * m <= 2.0 * n + d
  {
    var dx, dy := d * x, d * y;
    TimesAtMost(d, r, x, m, dx);
    TimesStrict(d, x, y, dx, dy);
    AddHalf(d, q, n, x);
    AddOne(d, r, m, y);
    BetweenHalves(n, d, m, dx, dy);
  }

  lemma QuotientTimes(n: int, d: int)
    requires 0 < d
    ensures (n as real / d as real) * d as real == n as real
  {
  }

  lemma BackToWhole(n: int, d: int, m: int)
    requires 2.0 * (n as real) - d as real < 2.0 * (m as real) <= 2.0 * (n as real) + d as real
    ensures 2 * n - d < 2 * m <= 2 * n + d
  {
  }

  lemma RealProduct(a: int, b: int)
    ensures (a * b) as real == a as real * b as real
  {
  }

  /** Math.round of a quotient of whole numbers. */
  lemma RoundOfQuotient(n: int, d: int)
    requires 0 < d
    ensures RoundsHalfUp(n, d, Round(n as real / d as real))
  {
    var q, r := n as real / d as real, Round(n as real / d as real);
    QuotientTimes(n, d);
    RealProduct(d, r);
    ScaledRound(d as real, q, r as real, q + 0.5, r as real + 1.0, n as real, (d * r) as real);
    BackToWhole(n, d, d * r);
  }

  lemma CappedRatio(v: int, p: int, top: nat)
    requires 0 < p
    ensures MinReal(v as real / p as real, top as real) == Min(v, top * p) as real / p as real
  {
    var x, q := v as real, p as real;
    assert (top * p) as real == top as real * q;
    assert (x / q) * q == x && (top as real * q) / q == top as real;
    if v <= top * p {
      RatioGrows(v, top * p, p);
    } else {
      RatioGrows(top * p, v, p);
    }
  }

  lemma SharedDenominator(base: nat, e: int, p: int)
    requires 0 < p
    ensures base as real * (e as real / p as real - 1.0) == (base * (e - p)) as real / p as real
  {
    var b, x, q := base as real, e as real, p as real;
    assert (base * (e - p)) as real == b * (x - q);
    assert (x / q - 1.0) * q == x - q;
    assert (b * (x / q - 1.0)) * q == b * (x - q);
  }

  /** The points of a kind earned, in whole numbers. */
  predicate Earns(config: Config, d: Delivery, kind: AwardType, points: int)
  {
    var mult := if d.isCreation then config.creationHundredths else config.distributionHundredths;
    match kind
    case DeliveryCompleted => RoundsHalfUp(config.completed * mult, 100, points)
    case DeliveredOnTime => points == if d.onTime then config.onTime else 0
    case QualityClean => points == if d.autoFlag then 0 else config.clean
    case OverDelivery =>
      var over := OverPoints(config, d.verified, d.promised);
      && (if 0 < d.promised < d.verified
          then RoundsHalfUp(config.overBase * (Min(d.verified, config.overCapRatio * d.promised) - d.promised),
                            d.promised, over)
          else over == 0)
      && RoundsHalfUp((if over < 0 then 0 else over) * mult, 100, points)
  }

  /**
   * What each kind earns: the multiplier of the category scales completion and over-delivery, and over-delivery is the
   * base times the excess over the promise, counted up to the capped ratio, rounded before it is scaled.
   */
  lemma PointsInFull(config: Config, d: Delivery, kind: AwardType)
    ensures Earns(config, d, kind, PointsFor(config, d, kind))
  {
    var mult := Multiplier(config, d);
    match kind
    case DeliveryCompleted => ScaleRounds(config.completed, mult);
    case OverDelivery =>
      var over := OverPoints(config, d.verified, d.promised);
      if 0 < d.promised < d.verified {
        OverInFull(config, d.verified, d.promised);
      }
      ScaleRounds(Max(0, over), mult);
    case _ =>
  }

  lemma ScaleRounds(points: int, hundredths: nat)
    ensures RoundsHalfUp(points * hundredths, 100, Scale(points, hundredths))
  {
    RoundOfQuotient(points * hundredths, 100);
  }

  lemma OverInFull(config: Config, verified: int, promised: int)
    requires 0 < promised < verified
    ensures RoundsHalfUp(config.overBase * (Min(verified, config.overCapRatio * promised) - promised), promised,
                         OverPoints(config, verified, promised))
  {
    var e := Min(verified, config.overCapRatio * promised);
    var n := config.overBase * (e - promised);
    CappedRatio(verified, promised, config.overCapRatio);
    SharedDenominator(config.overBase, e, promised);
    RoundOfQuotient(n, promised);
    assert OverPoints(config, verified, promised) == Round(n as real / promised as real);
  }

  predicate AllPositive(awards: seq<Award>) { forall i :: 0 <= i < |awards| ==> 0 < awards[i].points }

  function Rank(k: AwardType): nat
  {
    match k case DeliveryCompleted => 0 case DeliveredOnTime => 1 case QualityClean => 2 case OverDelivery => 3
  }

  predicate Ascending(awards: seq<Award>)
  {
    forall i, j :: 0 <= i < j < |awards| ==> Rank(awards[i].kind) < Rank(awards[j].kind)
  }

  predicate Lists(awards: seq<Award>, kind: AwardType) { exists i :: 0 <= i < |awards| && awards[i].kind == kind }

  /**
   * Every award carries the points of its kind, in order, each kind once, and no kind that earns something is missing.
   */
  predicate AreAwardsOf(config: Config, d: Delivery, awards: seq<Award>)
  {
    && (forall i :: 0 <= i < |awards| ==> awards[i].points == PointsFor(config, d, awards[i].kind))
    && Ascending(awards)
    && (forall k: AwardType :: 0 < PointsFor(config, d, k) ==> Lists(awards, k))
  }

  /** filter(points > 0). */
  method KeepPositive(config: Config, d: Delivery, out: seq<Award>) returns (awards: seq<Award>)
    requires AreAwardsOf(config, d, out)
    ensures AreAwardsOf(config, d, awards) && AllPositive(awards)
  {
    awards := [];
    for i := 0 to |out|
      invariant AllPositive(awards) && Ascending(awards)
      invariant forall j :: 0 <= j < |awards| ==> awards[j].points == PointsFor(config, d, awards[j].kind)
      invariant forall j, k :: 0 <= j < |awards| && i <= k < |out| ==> Rank(awards[j].kind) < Rank(out[k].kind)
      invariant forall j :: 0 <= j < i && 0 < out[j].points ==> Lists(awards, out[j].kind)
    {
      if 0 < out[i].points {
        ghost var before := awards;
        awards := awards + [out[i]];
        assert awards[|before|] == out[i];
        forall k: AwardType | Lists(before, k) ensures Lists(awards, k) {
          var j :| 0 <= j < |before| && before[j].kind == k;
          assert awards[j].kind == k;
        }
      }
    }
    forall k: AwardType | 0 < PointsFor(config, d, k) ensures Lists(awards, k) {
      assert Lists(out, k);
      var j :| 0 <= j < |out| && out[j].kind == k;
      assert Lists(awards, out[j].kind);
    }
  }

  /** deliveryAwards: push what applies, then keep what is positive. */
  method DeliveryAwards(config: Config, d: Delivery) returns (awards: seq<Award>)
    ensures AreAwardsOf(config, d, awards) && AllPositive(awards)
  {
    var completed := Scale(config.completed, Multiplier(config, d));
    var over := OverPoints(config, d.verified, d.promised);
    var scaled := Scale(Max(0, over), Multiplier(config, d));
    NothingScalesToNothing(Multiplier(config, d));
    var out := [Award(DeliveryCompleted, completed)];
    if d.onTime {
      out := out + [Award(DeliveredOnTime, config.onTime)];
    }
    if !d.autoFlag {
      out := out + [Award(QualityClean, config.clean)];
    }
    if 0 < over {
      out := out + [Award(OverDelivery, scaled)];
    }
    ListedAll(config, d, out, completed, over, scaled);
    awards := KeepPositive(config, d, out);
  }

  lemma ListedAll(config: Config, d: Delivery, out: seq<Award>, completed: int, over: int, scaled: int)
    requires completed == PointsFor(config, d, DeliveryCompleted) && scaled == PointsFor(config, d, OverDelivery)
    requires over <= 0 ==> scaled == 0
    requires out == [Award(DeliveryCompleted, completed)]
                    + (if d.onTime then [Award(DeliveredOnTime, config.onTime)] else [])
                    + (if d.autoFlag then [] else [Award(QualityClean, config.clean)])
                    + (if 0 < over then [Award(OverDelivery, scaled)] else [])
    ensures AreAwardsOf(config, d, out)
  {
    assert out[0].kind == DeliveryCompleted;
    assert d.onTime ==> out[1].kind == DeliveredOnTime;
    assert !d.autoFlag ==> out[if d.onTime then 2 else 1].kind == QualityClean;
    assert 0 < over ==> out[|out| - 1].kind == OverDelivery;
  }

  lemma NothingScalesToNothing(hundredths: nat)
    ensures Scale(0, hundredths) == 0
  {
  }

  lemma RoundMonotone(x: real, y: real)
    requires x <= y
    ensures Round(x) <= Round(y)
  {
  }

  lemma RoundOfInt(n: int)
    ensures Round(n as real) == n
  {
  }

  lemma TimesMonotone(b: real, x: real, y: real)
    requires 0.0 <= b && x <= y
    ensures b * x <= b * y
  {
  }

  lemma SameRatio(v: int, p: int, k: int)
    requires 0 < p && 0 < k
    ensures (v * k) as real / (p * k) as real == v as real / p as real
  {
    var x, y, z := v as real, p as real, k as real;
    assert (v * k) as real == x * z && (p * k) as real == y * z && 0.0 < y * z;
    assert (x / y) * (y * z) == x * z by {
      assert (x / y) * (y * z) == ((x / y) * y) * z;
    }
  }

  lemma OverPointsAreRelative(config: Config, v: int, p: int, k: int)
    requires 0 < k
    ensures OverPoints(config, v * k, p * k) == OverPoints(config, v, p)
  {
    ScaledComparison(v, p, k);
    if 0 < p < v {
      SameRatio(v, p, k);
    }
  }

  /**
   * Over-delivery is rewarded relative to the promise: a promoter with k times the promise and k times the views earns
   * the same.
   */
  lemma OverDeliveryIsRelative(config: Config, d: Delivery, k: int, kind: AwardType)
    requires 0 < k
    ensures PointsFor(config, d.(verified := d.verified * k, promised := d.promised * k), kind)
            == PointsFor(config, d, kind)
  {
    if kind.OverDelivery? {
      OverPointsAreRelative(config, d.verified, d.promised, k);
    }
  }

  lemma ScaledComparison(v: int, p: int, k: int)
    requires 0 < k
    ensures 0 < p * k <==> 0 < p
    ensures p * k < v * k <==> p < v
  {
    if p <= v - 1 {
      assert p * k <= (v - 1) * k;
    } else {
      assert v * k <= p * k;
    }
  }

  lemma RatioGrows(v1: int, v2: int, p: int)
    requires 0 < p && v1 <= v2
    ensures v1 as real / p as real <= v2 as real / p as real
  {
    var x, y, q := v1 as real, v2 as real, p as real;
    assert (y / q - x / q) * q == y - x;
  }

  lemma RoundedProducts(b: real, m1: real, m2: real, top: real, n: int)
    requires 0.0 <= b && 0.0 <= m1 <= m2 <= top && b * top == n as real
    ensures 0 <= Round(b * m1) <= Round(b * m2) <= n
  {
    TimesMonotone(b, 0.0, m1);
    TimesMonotone(b, m1, m2);
    TimesMonotone(b, m2, top);
    RoundMonotone(0.0, b * m1);
    RoundMonotone(b * m1, b * m2);
    RoundMonotone(b * m2, b * top);
    RoundOfInt(n);
    RoundOfInt(0);
  }

  lemma WholeProduct(base: nat, top: nat)
    ensures base as real * (top as real - 1.0) == (base * (top - 1)) as real
  {
  }

  /** The points of a ratio: between none and base x (top - 1), growing with the ratio. */
  lemma RatioPointsGrow(config: Config, r1: real, r2: real)
    requires 1 <= config.overCapRatio && 1.0 <= r1 <= r2
    ensures 0 <= RatioPoints(config.overBase, config.overCapRatio, r1)
            <= RatioPoints(config.overBase, config.overCapRatio, r2) <= OverMax(config)
    ensures config.overCapRatio as real <= r1 ==>
            RatioPoints(config.overBase, config.overCapRatio, r1) == OverMax(config)
  {
    var t := config.overCapRatio as real;
    WholeProduct(config.overBase, config.overCapRatio);
    var b, m1, m2 := config.overBase as real, MinReal(r1, t) - 1.0, MinReal(r2, t) - 1.0;
    RoundedProducts(b, m1, m2, t - 1.0, OverMax(config));
    assert RatioPoints(config.overBase, config.overCapRatio, r1) == Round(b * m1);
    assert RatioPoints(config.overBase, config.overCapRatio, r2) == Round(b * m2);
    if t <= r1 {
      assert MinReal(r1, t) == t;
      RoundOfInt(OverMax(config));
    }
  }

  /**
   * More verified reach never earns less, and never more than the advertised maximum, which is reached at the capped
   * ratio.
   */
  lemma OverDeliveryIsBounded(config: Config, v1: int, v2: int, promised: int)
    requires v1 <= v2 && 1 <= config.overCapRatio
    ensures 0 <= OverPoints(config, v1, promised) <= OverPoints(config, v2, promised) <= OverMax(config)
    ensures 0 < promised < v1 && promised * config.overCapRatio <= v1 ==>
            OverPoints(config, v1, promised) == OverMax(config)
  {
    NonNegativeProduct(config.overBase, config.overCapRatio - 1);
    if 0 < promised < v2 {
      RatioAboveOne(v2, promised);
      var r2 := v2 as real / promised as real;
      RatioPointsGrow(config, r2, r2);
      if promised < v1 {
        RatioAboveOne(v1, promised);
        RatioGrows(v1, v2, promised);
        RatioPointsGrow(config, v1 as real / promised as real, r2);
        if promised * config.overCapRatio <= v1 {
          RatioAtCap(v1, promised, config.overCapRatio);
        }
      }
    }
  }

  lemma NonNegativeProduct(a: nat, b: nat)
    ensures 0 <= a * b
  {
  }

  lemma RatioAboveOne(v: int, p: int)
    requires 0 < p < v
    ensures 1.0 <= v as real / p as real
  {
    RatioGrows(p, v, p);
  }

  lemma RatioAtCap(v: int, p: int, n: nat)
    requires 0 < p && p * n <= v
    ensures n as real <= v as real / p as real
  {
    RatioGrows(p * n, v, p);
    assert (p * n) as real == n as real * p as real;
  }

  // ---- The cap per promoter and campaign ----

  function PointsOf(a: Award): int { a.points }

  function TotalOf(awards: seq<Award>): int { Sum(PointsOf, awards) }

  /** What is kept of a list of awards once `running` points count towards the cap. */
  function Kept(awards: seq<Award>, running: int, cap: int): seq<Award>
  {
    if awards == [] || cap <= running then []
    else
      var points := Min(awards[0].points, cap - running);
      if 0 < points then [Award(awards[0].kind, points)] + Kept(awards[1..], running + points, cap)
      else Kept(awards[1..], running, cap)
  }

  function Capped(awards: seq<Award>, prior: int, cap: int): seq<Award>
  {
    if cap <= 0 then awards else Kept(awards, Max(0, prior), cap)
  }

  /** applyCampaignCap: a cap of zero is no cap. */
  method ApplyCampaignCap(awards: seq<Award>, prior: int, cap: int) returns (kept: seq<Award>)
    ensures kept == Capped(awards, prior, cap)
  {
    if cap <= 0 {
      return awards;
    }
    var running := Max(0, prior);
    kept := [];
    for i := 0 to |awards|
      invariant kept + Kept(awards[i..], running, cap) == Kept(awards, Max(0, prior), cap)
    {
      assert awards[i..][1..] == awards[i + 1..];
      if running >= cap {
        return;
      }
      var points := Min(awards[i].points, cap - running);
      if 0 < points {
        kept := kept + [Award(awards[i].kind, points)];
        running := running + points;
      }
    }
  }

  lemma {:induction false} TotalCons(a: Award, rest: seq<Award>)
    ensures TotalOf([a] + rest) == a.points + TotalOf(rest)
  {
    SumConcat(PointsOf, [a], rest);
    assert [a][..0] == [];
  }

  lemma {:induction false} KeptShape(awards: seq<Award>, running: int, cap: int)
    requires AllPositive(awards)
    ensures var kept := Kept(awards, running, cap);
            && |kept| <= |awards| && AllPositive(kept)
            && (forall i :: 0 <= i < |kept| ==> kept[i].kind == awards[i].kind && kept[i].points <= awards[i].points)
            && (forall i :: 0 <= i < |kept| - 1 ==> kept[i] == awards[i])
    decreases |awards|
  {
    if awards != [] && running < cap {
      KeptShape(awards[1..], running + Min(awards[0].points, cap - running), cap);
    }
  }

  lemma {:induction false} KeptTotal(awards: seq<Award>, running: int, cap: int)
    requires AllPositive(awards)
    ensures TotalOf(Kept(awards, running, cap)) == Min(TotalOf(awards), Max(0, cap - running)) && 0 <= TotalOf(awards)
    decreases |awards|
  {
    SumNonNegative(PointsOf, awards);
    if awards != [] && running < cap {
      var a, rest := awards[0], awards[1..];
      var points := Min(a.points, cap - running);
      assert awards == [a] + rest;
      KeptTotal(rest, running + points, cap);
      TotalCons(a, rest);
      TotalCons(Award(a.kind, points), Kept(rest, running + points, cap));
    }
  }

  /**
   * The kept awards are the first ones, in order and untouched, except that the last may be cut short; they add up to
   * what room there was.
   */
  lemma KeptIsClampedPrefix(awards: seq<Award>, prior: int, cap: int)
    requires AllPositive(awards) && 0 < cap
    ensures var kept := Capped(awards, prior, cap);
            && |kept| <= |awards| && AllPositive(kept)
            && (forall i :: 0 <= i < |kept| ==> kept[i].kind == awards[i].kind && kept[i].points <= awards[i].points)
            && (forall i :: 0 <= i < |kept| - 1 ==> kept[i] == awards[i])
            && TotalOf(kept) == Min(TotalOf(awards), Max(0, cap - Max(0, prior)))
  {
    KeptShape(awards, Max(0, prior), cap);
    KeptTotal(awards, Max(0, prior), cap);
  }

  // ---- A whole campaign of approvals ----

  /** Positive points a promoter has on a campaign after a series of approvals, each capped against what came before. */
  function Accrued(approvals: seq<seq<Award>>, prior: int, cap: int): int
  {
    if approvals == [] then prior
    else
      var before := Accrued(approvals[..|approvals| - 1], prior, cap);
      before + TotalOf(Capped(approvals[|approvals| - 1], before, cap))
  }

  function GrandTotal(approvals: seq<seq<Award>>): int { Sum(TotalOf, approvals) }

  /**
   * However the awards are spread over approvals, the promoter ends with everything earned up to the cap, and never a
   * point more.
   */
  lemma {:induction false} CapHoldsOverApprovals(approvals: seq<seq<Award>>, prior: int, cap: int)
    requires 0 < cap && 0 <= prior && forall k :: 0 <= k < |approvals| ==> AllPositive(approvals[k])
    ensures Accrued(approvals, prior, cap) == Max(prior, Min(cap, prior + GrandTotal(approvals)))
    ensures 0 <= GrandTotal(approvals)
    decreases |approvals|
  {
    if approvals != [] {
      var front, last := approvals[..|approvals| - 1], approvals[|approvals| - 1];
      assert forall k :: 0 <= k < |front| ==> front[k] == approvals[k];
      CapHoldsOverApprovals(front, prior, cap);
      KeptTotal(last, Accrued(front, prior, cap), cap);
    }
  }
}
