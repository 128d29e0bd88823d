/**
 * src/modules/campaigns/campaigns.service.ts: what a quote freezes onto a campaign, and the preview that precedes it.
 */
module Quotes {
  import opened Common
  import opened Pricing

  datatype Terms = Terms(objective: Objective, filters: Filters, config: PricingConfig, defaultReach: nat, floor: nat)

  /** The client's explicit reach per slot, or the category default. */
  function ReachPerSlot(terms: Terms): nat
  {
    if 0 < terms.filters.minEffectiveReach then terms.filters.minEffectiveReach else terms.defaultReach
  }

  datatype Quote = Quote(price: nat, unit: nat, slots: nat, target: nat)

  datatype QuoteError = BelowFloor | Unpriceable(why: PricingError)

  function Times(a: nat, b: nat): nat { a * b }

  /** Slots x reach per slot x posts: the reach the client pays for. */
  function TargetReach(slots: nat, reach: nat, posts: nat): nat { Times(slots, Times(reach, posts)) }

  /** The client's exact price, spread over the slots it buys. */
  function QuoteExact(posts: nat, price: nat, terms: Terms): Result<Quote, QuoteError>
  {
    var reach := ReachPerSlot(terms);
    match SizeFromPrice(price, terms.objective, terms.filters, Times(reach, posts), terms.config)
    case Err(e) => Err(Unpriceable(e))
    case Ok(size) =>
      var units := Times(size.slots, posts);
      Ok(Quote(price, if 0 < units then price / units else price, size.slots, TargetReach(size.slots, reach, posts)))
  }

  /** The client's slot count, each slot at its computed price. */
  function QuoteSlots(posts: nat, slots: nat, terms: Terms): Result<Quote, QuoteError>
  {
    var reach := ReachPerSlot(terms);
    match SlotPrice(reach, terms.objective, terms.filters, terms.config)
    case Err(e) => Err(Unpriceable(e))
    case Ok(unit) => Ok(Quote(Times(unit, Times(slots, posts)), unit, slots, TargetReach(slots, reach, posts)))
  }

  /** quote: an exact price fixes the slot count, or the slot count fixes the price; either must clear the floor. */
  function QuoteFor(posts: nat, slotsTotal: nat, exactPrice: Option<int>, terms: Terms): Result<Quote, QuoteError>
  {
    match exactPrice
    case Some(price) => if price < terms.floor then Err(BelowFloor) else QuoteExact(posts, price, terms)
    case None =>
      var q := QuoteSlots(posts, slotsTotal, terms);
      if q.Ok? && q.value.price < terms.floor then Err(BelowFloor) else q
  }

  lemma SpreadLeavesLittle(price: nat, slots: nat, posts: nat)
    requires 1 <= slots && 1 <= posts
    ensures var units := Times(slots, posts);
            0 < units && slots * posts * (price / units) <= price < slots * posts * (price / units) + slots * posts
  {
    MulMonotone(posts, 1, slots);
    Division(price, Times(slots, posts));
  }

  lemma Division(n: nat, d: nat)
    requires 0 < d
    ensures d * (n / d) <= n < d * (n / d) + d
  {
    assert n == d * (n / d) + n % d;
  }

  lemma SlotsTimesUnit(unit: nat, slots: nat, posts: nat)
    ensures Times(unit, Times(slots, posts)) == slots * posts * unit
  {
  }

  /** What the slots can be paid never exceeds the price, and what is left over is less than a kobo a posting. */
  lemma QuoteNeverOverCommits(posts: nat, slotsTotal: nat, exactPrice: Option<int>, terms: Terms)
    requires 1 <= posts && QuoteFor(posts, slotsTotal, exactPrice, terms).Ok?
    ensures var q := QuoteFor(posts, slotsTotal, exactPrice, terms).value;
            && q.slots * posts * q.unit <= q.price
            && (exactPrice.Some? ==>
               q.price == exactPrice.value && 1 <= q.slots && q.price - q.slots * posts * q.unit < q.slots * posts)
            && (exactPrice.None? ==> q.price == q.slots * posts * q.unit && q.slots == slotsTotal)
            && terms.floor <= q.price
  {
    var q := QuoteFor(posts, slotsTotal, exactPrice, terms).value;
    if exactPrice.Some? {
      SizeTracksReach(exactPrice.value, terms.objective, terms.filters, Times(ReachPerSlot(terms), posts),
        terms.config);
      SpreadLeavesLittle(q.price, q.slots, posts);
    } else {
      SlotsTimesUnit(q.unit, q.slots, posts);
    }
  }

  lemma ThreeFactors(a: nat, b: nat, c: nat)
    ensures Times(a, Times(b, c)) == a * b * c
  {
  }

  /**
   * What a quote freezes, whichever side the client fixes: each post is priced for the reach the client asked of a
   * promoter (the category's when none was asked), the reach paid for is that times slots times posts, and the quote is
   * refused exactly when the objective has no multiplier or the price is below the floor.
   */
  lemma QuoteIsTheFormula(posts: nat, slotsTotal: nat, exactPrice: Option<nat>, terms: Terms)
    ensures var reach := if 0 < terms.filters.minEffectiveReach then terms.filters.minEffectiveReach
                         else terms.defaultReach;
            var perPost := SlotPrice(reach, terms.objective, terms.filters, terms.config);
            var r := QuoteFor(posts, slotsTotal, exactPrice, terms);
            && (perPost.Ok? <==> terms.objective in terms.config.objectiveMult)
            && (r.Ok? <==> perPost.Ok? && terms.floor <= (if exactPrice.Some? then exactPrice.value
                                                           else perPost.value * slotsTotal * posts))
            && (r.Ok? ==>
                  && r.value.target == r.value.slots * reach * posts
                  && match exactPrice
                     case None =>
                       r.value.slots == slotsTotal && r.value.unit == perPost.value
                       && r.value.price == perPost.value * slotsTotal * posts
                     case Some(price) =>
                       && r.value.price == price && 1 <= r.value.slots
                       && SlotTargetReach(price, terms.objective, terms.filters, terms.config).Ok?
                       && var bought := SlotTargetReach(price, terms.objective, terms.filters, terms.config).value;
                          NearestFrom1(bought, Max(1, reach * posts), r.value.slots))
  {
    var reach := ReachPerSlot(terms);
    if exactPrice.Some? && terms.floor <= exactPrice.value && terms.objective in terms.config.objectiveMult {
      var size := SizeFromPrice(exactPrice.value, terms.objective, terms.filters, Times(reach, posts), terms.config);
      SizeTracksReach(exactPrice.value, terms.objective, terms.filters, Times(reach, posts), terms.config);
      ThreeFactors(size.value.slots, reach, posts);
    }
    if terms.objective in terms.config.objectiveMult {
      ThreeFactors(slotsTotal, reach, posts);
      ThreeFactors(SlotPrice(reach, terms.objective, terms.filters, terms.config).value, slotsTotal, posts);
    }
  }

  // ---- The preview ----

  datatype Driver = ByPrice(price: int) | ByBudget(budget: int) | BySlots(slots: int)

  datatype Plan = Plan(unitShown: nat, slots: nat, total: nat, estimatedReach: nat, minSlots: nat, meetsFloor: bool)

  const PLAN_CAP: nat := 10_000

  function Clamp(slots: int): nat { Min(Max(slots, 0), PLAN_CAP) }

  /** plan, driven by a budget or a slot count: whole slots at the computed cost. */
  function PlanSlots(posts: nat, slots: nat, slotCost: nat, minSlots: nat, terms: Terms): Plan
  {
    var total := Times(slotCost, slots);
    Plan(slotCost, slots, total, TargetReach(slots, ReachPerSlot(terms), posts), minSlots, terms.floor <= total)
  }

  function Quotient(a: nat, d: nat): nat
    requires 0 < d
  {
    a / d
  }

  function MinSlots(slotCost: nat, floor: nat): nat
  {
    if 0 < slotCost then (floor + slotCost - 1) / slotCost else 0
  }

  /** plan: the same arithmetic as the quote, nothing stored and no floor enforced. */
  function PlanFor(posts: nat, driver: Driver, terms: Terms): Result<Plan, PricingError>
  {
    match SlotPrice(ReachPerSlot(terms), terms.objective, terms.filters, terms.config)
    case Err(e) => Err(e)
    case Ok(perPost) =>
      var slotCost := Times(perPost, posts);
      var minSlots := MinSlots(slotCost, terms.floor);
      match driver
      case ByPrice(price) =>
        var total := Max(0, price);
        (match SizeFromPrice(total, terms.objective, terms.filters, Times(ReachPerSlot(terms), posts), terms.config)
         case Err(e) => Err(e)
         case Ok(size) =>
           Ok(Plan(if 0 < size.slots then Quotient(total, size.slots) else slotCost, size.slots,
                   total, size.totalReach, minSlots, terms.floor <= total)))
      case ByBudget(budget) =>
        Ok(PlanSlots(posts, Clamp(if 0 < slotCost && 0 <= budget then Quotient(budget, slotCost) else 0), slotCost,
          minSlots, terms))
      case BySlots(n) => Ok(PlanSlots(posts, Clamp(n), slotCost, minSlots, terms))
  }

  /**
   * For one exact price the preview and the quote give the same slots and total, and the quote is refused exactly below
   * the floor the preview reports.
   */
  lemma PlanAgreesWithQuote(posts: nat, slotsTotal: nat, price: nat, terms: Terms)
    requires terms.objective in terms.config.objectiveMult
    ensures var plan := PlanFor(posts, ByPrice(price), terms);
            var quote := QuoteFor(posts, slotsTotal, Some(price), terms);
            && plan.Ok?
            && (plan.value.meetsFloor <==> quote.Ok?)
            && (quote.Ok? ==> plan.value.slots == quote.value.slots && plan.value.total == quote.value.price == price)
            && (quote.Ok? && 1 <= posts ==> quote.value.unit * posts <= plan.value.unitShown)
  {
    var plan := PlanFor(posts, ByPrice(price), terms).value;
    SizeTracksReach(price, terms.objective, terms.filters, Times(ReachPerSlot(terms), posts), terms.config);
    if plan.meetsFloor && 1 <= posts {
      MulMonotone(posts, 1, plan.slots);
      UnitFitsSlot(price, plan.slots, posts);
    }
  }

  lemma UnitFitsSlot(price: nat, slots: nat, posts: nat)
    requires 1 <= slots && 1 <= posts && 0 < slots * posts
    ensures price / (slots * posts) * posts <= price / slots
  {
    var units := slots * posts;
    var u := price / units;
    assert price == units * u + price % units;
    assert units * u == slots * (u * posts);
    var q := price / slots;
    assert price == slots * q + price % slots;
    assert slots * (q + 1) == slots * q + slots;
    CancelFactor(slots, u * posts, q + 1);
  }

  /** The preview shows what the quote froze: its slots, its total, its reach, and that it clears the floor. */
  predicate Previews(plan: Plan, quote: Quote)
  {
    plan.slots == quote.slots && plan.total == quote.price && plan.estimatedReach == quote.target && plan.meetsFloor
  }

  /**
   * For one slot count the preview and the quote give the same per-slot cost, and they agree on everything else exactly
   * while the preview does not cut the count at its cap.
   */
  lemma PlanAgreesOnSlots(posts: nat, slots: nat, terms: Terms)
    requires QuoteFor(posts, slots, None, terms).Ok?
    ensures var plan := PlanFor(posts, BySlots(slots), terms);
            var quote := QuoteFor(posts, slots, None, terms).value;
            && plan.Ok? && plan.value.unitShown == Times(quote.unit, posts)
            && plan.value.slots == Min(quote.slots, 10_000) && plan.value.total <= quote.price
            && (Previews(plan.value, quote) <==> slots <= 10_000)
  {
    var unit := QuoteFor(posts, slots, None, terms).value.unit;
    assert unit * (slots * posts) == unit * posts * slots;
    MulMonotone(unit * posts, Min(slots, PLAN_CAP), slots);
  }

  /**
   * A preview in full. Posts cost what a quote would ask; a price above nothing is spread over the slots it buys, a
   * budget buys whole slots as long as they cost anything, a slot count is taken as it is, both from none to ten
   * thousand; a shortage of budget, a free slot or a negative figure buys none.
   */
  lemma PlanInFull(posts: nat, driver: Driver, terms: Terms, perPost: nat)
    requires SlotPrice(ReachPerSlot(terms), terms.objective, terms.filters, terms.config) == Ok(perPost)
    ensures var cost := perPost * posts;
            var reach := if 0 < terms.filters.minEffectiveReach then terms.filters.minEffectiveReach
                         else terms.defaultReach;
            var r := PlanFor(posts, driver, terms);
            && r.Ok? && (cost == 0 ==> r.value.minSlots == 0)
            && (r.value.meetsFloor <==> terms.floor <= r.value.total)
            && match driver
               case ByPrice(price) =>
                 && r.value.total == (if price < 0 then 0 else price) && 1 <= r.value.slots
                 && r.value.unitShown == r.value.total / r.value.slots
                 && SlotTargetReach(r.value.total, terms.objective, terms.filters, terms.config)
                    == Ok(r.value.estimatedReach)
                 && NearestFrom1(r.value.estimatedReach, Max(1, reach * posts), r.value.slots)
               case ByBudget(budget) =>
                 && r.value.unitShown == cost && r.value.total == cost * r.value.slots
                 && (budget < 0 || cost == 0 ==> r.value.slots == 0)
                 && r.value.estimatedReach == r.value.slots * reach * posts
               case BySlots(n) =>
                 && r.value.unitShown == cost && r.value.total == cost * r.value.slots
                 && r.value.slots == (if n < 0 then 0 else if n > 10_000 then 10_000 else n)
                 && r.value.estimatedReach == r.value.slots * reach * posts
  {
    var plan := PlanFor(posts, driver, terms);
    if plan.Ok? {
      ThreeFactors(plan.value.slots, ReachPerSlot(terms), posts);
    }
    if driver.ByPrice? {
      SizeTracksReach(Max(0, driver.price), terms.objective, terms.filters, Times(ReachPerSlot(terms), posts),
        terms.config);
    }
  }

  /** min_slots is the least slot count whose cost meets the floor. */
  lemma MinSlotsIsLeast(posts: nat, driver: Driver, terms: Terms, perPost: nat, slotCost: nat, n: nat)
    requires PlanFor(posts, driver, terms).Ok? && 0 < slotCost
    requires SlotPrice(ReachPerSlot(terms), terms.objective, terms.filters, terms.config) == Ok(perPost)
             && slotCost == Times(perPost, posts)
    ensures terms.floor <= n * slotCost <==> PlanFor(posts, driver, terms).value.minSlots <= n
  {
    CeilingIsLeast(terms.floor, slotCost, n);
  }

  lemma CeilingIsLeast(x: nat, d: nat, n: nat)
    requires 0 < d
    ensures x <= n * d <==> (x + d - 1) / d <= n
  {
    var c := (x + d - 1) / d;
    assert x + d - 1 == d * c + (x + d - 1) % d;
    assert d * (n + 1) == d * n + d && n * d == d * n;
    if x <= n * d {
      assert d * c < d * (n + 1);
      CancelFactor(d, c, n + 1);
    }
    if c <= n {
      MulMonotone(d, c, n);
    }
  }

  lemma MulMonotone(d: nat, a: int, b: int)
    requires a <= b
    ensures d * a <= d * b
  {
  }

  /** A budget buys as many whole slots as it pays for, up to the preview's cap, and is never overspent. */
  lemma BudgetIsKept(posts: nat, budget: nat, terms: Terms)
    requires PlanFor(posts, ByBudget(budget), terms).Ok?
    ensures var plan := PlanFor(posts, ByBudget(budget), terms).value;
            && plan.total == plan.slots * plan.unitShown <= budget
            && (plan.slots < PLAN_CAP && 0 < plan.unitShown ==> budget < (plan.slots + 1) * plan.unitShown)
  {
    var slotCost := PlanFor(posts, ByBudget(budget), terms).value.unitShown;
    if 0 < slotCost {
      WholeSlots(budget, slotCost, Clamp(budget / slotCost));
    }
  }

  lemma WholeSlots(budget: nat, cost: nat, n: nat)
    requires 0 < cost && n == Clamp(budget / cost)
    ensures Times(cost, n) == n * cost <= budget
    ensures n < PLAN_CAP ==> budget < (n + 1) * cost
  {
    Division(budget, cost);
    MulMonotone(cost, n, budget / cost);
    assert (n + 1) * cost == cost * n + cost;
  }
}
