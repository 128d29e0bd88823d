/**
 * src/modules/allocation/allocation.service.ts: topping a live campaign's outstanding offers up to what its open slots
 * call for.
 */
module Allocation {
  import opened Common
  import opened Campaigns
  import opened CampaignRows
  import opened CampaignMoney
  import opened CampaignHandlers

  /** ceil(1.5 x open): surplus offers so that declines and no-shows still fill the slots. */
  function OverOffer(open: nat): nat { (3 * open + 1) / 2 }

  function OpenCount(c: Campaign): nat { Max(c.slotsTotal - c.slotsFilled, 0) }

  function OutstandingOne(now: int): Offer -> int { (o: Offer) => if o.status.Sent? && now < o.expiresAt then 1 else 0 }

  /** Offers a promoter could still take. */
  function OutstandingOffers(offers: seq<Offer>, now: int): int { Sum(OutstandingOne(now), offers) }

  /** One offer an open slot while the head start lasts, over-offered afterwards. */
  function AllocationTarget(c: Campaign, headStartEnds: Option<int>, now: int): nat
  {
    if headStartEnds.Some? && now < headStartEnds.value then OpenCount(c) else OverOffer(OpenCount(c))
  }

  /** allocateCampaign: the ranked candidates are an input. */
  function Allocate(w: World, now: int, headStartEnds: Option<int>, ranked: seq<nat>, terms: OfferTerms): World
  {
    var c := w.campaign;
    if !c.status.Live? || OpenCount(c) == 0 then w
    else
      var toSend := Max(AllocationTarget(c, headStartEnds, now) - OutstandingOffers(c.offers, now), 0);
      SendOffers(w, ranked[..Min(toSend, |ranked|)], terms).0
  }

  function OpenOne(s: Slot): int { if s.status.Open? then 1 else 0 }

  /** The two counters give the number of open slots. */
  lemma {:induction false} OpenAndFilled(slots: seq<Slot>)
    requires forall k :: 0 <= k < |slots| ==> slots[k].status.Open? || slots[k].status.Filled?
    ensures Sum(OpenOne, slots) + Sum(FilledOne, slots) == |slots|
    decreases |slots|
  {
    if slots != [] {
      assert forall k :: 0 <= k < |slots| - 1 ==> slots[..|slots| - 1][k] == slots[k];
      OpenAndFilled(slots[..|slots| - 1]);
    }
  }

  lemma CountersGiveOpenSlots(c: Campaign)
    requires RowsOk(c) && c.status.Live?
    ensures OpenCount(c) == Sum(OpenOne, c.slots)
  {
    OpenAndFilled(c.slots);
    SumNonNegative(OpenOne, c.slots);
  }

  lemma {:induction false} BatchNeverExceeds(c: Campaign, promoters: seq<nat>, terms: OfferTerms, now: int)
    ensures OutstandingOffers(c.offers, now) <= OutstandingOffers(OfferEach(c, promoters, terms).0.offers, now)
            <= OutstandingOffers(c.offers, now) + |promoters|
    decreases |promoters|
  {
    if promoters != [] && promoters[0] in terms.qualified {
      if AlreadyOffered(c, promoters[0]) {
        BatchNeverExceeds(c, promoters[1..], terms, now);
      } else {
        SumSnoc(OutstandingOne(now), c.offers, NewOffer(c, promoters[0], terms));
        BatchNeverExceeds(c.(offers := c.offers + [NewOffer(c, promoters[0], terms)]), promoters[1..], terms, now);
      }
    }
  }

  /** Candidates as the matching service ranks them: qualified, distinct, never offered this campaign. */
  predicate Eligible(c: Campaign, promoters: seq<nat>, terms: OfferTerms)
  {
    && (forall i :: 0 <= i < |promoters| ==> promoters[i] in terms.qualified && !AlreadyOffered(c, promoters[i]))
    && (forall i, j :: 0 <= i < j < |promoters| ==> promoters[i] != promoters[j])
  }

  lemma {:induction false} BatchSendsAll(c: Campaign, promoters: seq<nat>, terms: OfferTerms, now: int)
    requires Eligible(c, promoters, terms) && now < terms.expiresAt
    ensures OfferEach(c, promoters, terms).1.Success?
    ensures OutstandingOffers(OfferEach(c, promoters, terms).0.offers, now)
            == OutstandingOffers(c.offers, now) + |promoters|
    decreases |promoters|
  {
    if promoters != [] {
      var c' := c.(offers := c.offers + [NewOffer(c, promoters[0], terms)]);
      SumSnoc(OutstandingOne(now), c.offers, NewOffer(c, promoters[0], terms));
      forall i | 0 <= i < |promoters| - 1 ensures !AlreadyOffered(c', promoters[1..][i]) {
        assert promoters[1..][i] == promoters[i + 1];
      }
      assert Eligible(c', promoters[1..], terms);
      BatchSendsAll(c', promoters[1..], terms, now);
    }
  }

  /** However the candidates come, a pass never takes the outstanding offers beyond the target. */
  lemma AllocationNeverOverOffers(w: World, now: int, headStartEnds: Option<int>, ranked: seq<nat>, terms: OfferTerms)
    ensures var before := OutstandingOffers(w.campaign.offers, now);
            var after := OutstandingOffers(Allocate(w, now, headStartEnds, ranked, terms).campaign.offers, now);
            before <= after <= Max(before, AllocationTarget(w.campaign, headStartEnds, now))
  {
    var c := w.campaign;
    var toSend := Max(AllocationTarget(c, headStartEnds, now) - OutstandingOffers(c.offers, now), 0);
    BatchNeverExceeds(c, ranked[..Min(toSend, |ranked|)], terms, now);
  }

  /** With eligible candidates it tops up exactly: to the target, or as far as the candidates reach. */
  lemma AllocationTopsUp(w: World, now: int, headStartEnds: Option<int>, ranked: seq<nat>, terms: OfferTerms)
    requires w.campaign.status.Live? && w.campaign.slots != [] && 0 < OpenCount(w.campaign)
    requires Eligible(w.campaign, ranked, terms) && now < terms.expiresAt
    ensures var before := OutstandingOffers(w.campaign.offers, now);
            OutstandingOffers(Allocate(w, now, headStartEnds, ranked, terms).campaign.offers, now)
            == Max(before, Min(AllocationTarget(w.campaign, headStartEnds, now), before + |ranked|))
  {
    var c := w.campaign;
    var toSend := Max(AllocationTarget(c, headStartEnds, now) - OutstandingOffers(c.offers, now), 0);
    var picked := ranked[..Min(toSend, |ranked|)];
    assert Eligible(c, picked, terms);
    BatchSendsAll(c, picked, terms, now);
  }

  /**
   * What the pass is for: with enough candidates every open slot has an offer a promoter could still take, and while
   * the head start lasts there is exactly one for each, unless more were out already.
   */
  lemma EveryOpenSlotIsOffered(w: World, now: int, headStartEnds: Option<int>, ranked: seq<nat>, terms: OfferTerms)
    requires w.campaign.status.Live? && RowsOk(w.campaign)
    requires Eligible(w.campaign, ranked, terms) && now < terms.expiresAt
    requires AllocationTarget(w.campaign, headStartEnds, now) <= OutstandingOffers(w.campaign.offers, now) + |ranked|
    ensures var open := Sum(OpenOne, w.campaign.slots);
            var before := OutstandingOffers(w.campaign.offers, now);
            var after := OutstandingOffers(Allocate(w, now, headStartEnds, ranked, terms).campaign.offers, now);
            && open <= after
            && (headStartEnds.Some? && now < headStartEnds.value ==> after == Max(before, open))
  {
    CountersGiveOpenSlots(w.campaign);
    SumNonNegative(OutstandingOne(now), w.campaign.offers);
    if 0 < OpenCount(w.campaign) {
      AllocationTopsUp(w, now, headStartEnds, ranked, terms);
    }
  }

  /** Safe to run again: once the target is met, a second pass with any candidates sends nothing. */
  lemma AllocationSettles(w: World, now: int, headStartEnds: Option<int>, ranked: seq<nat>, again: seq<nat>,
                          terms: OfferTerms)
    requires w.campaign.status.Live? && w.campaign.slots != [] && 0 < OpenCount(w.campaign)
    requires Eligible(w.campaign, ranked, terms) && now < terms.expiresAt
    requires AllocationTarget(w.campaign, headStartEnds, now) <= OutstandingOffers(w.campaign.offers, now) + |ranked|
    ensures var w1 := Allocate(w, now, headStartEnds, ranked, terms);
            Allocate(w1, now, headStartEnds, again, terms) == w1
  {
    AllocationTopsUp(w, now, headStartEnds, ranked, terms);
    var w1 := Allocate(w, now, headStartEnds, ranked, terms);
    AllocationKeepsHeader(w, now, headStartEnds, ranked, terms);
    assert again[..0] == [];
  }

  lemma AllocationKeepsHeader(w: World, now: int, headStartEnds: Option<int>, ranked: seq<nat>, terms: OfferTerms)
    ensures var w1 := Allocate(w, now, headStartEnds, ranked, terms);
            w1 == w.(campaign := w.campaign.(offers := w1.campaign.offers))
  {
    var c := w.campaign;
    var toSend := Max(AllocationTarget(c, headStartEnds, now) - OutstandingOffers(c.offers, now), 0);
    OfferEachKeepsHeader(c, ranked[..Min(toSend, |ranked|)], terms);
  }

  // ---- A pass in full ----

  /** The offers a promoter could still take. */
  function Standing(offers: seq<Offer>, now: int): set<nat>
  {
    set i: nat | i < |offers| && offers[i].status == Sent && now < offers[i].expiresAt
  }

  lemma {:induction false} StandingIsCounted(offers: seq<Offer>, now: int)
    ensures OutstandingOffers(offers, now) == |Standing(offers, now)|
    decreases |offers|
  {
    if offers == [] {
      assert Standing(offers, now) == {};
    } else {
      var n := |offers| - 1;
      StandingIsCounted(offers[..n], now);
      LastStanding(offers, n, now);
    }
  }

  lemma LastStanding(offers: seq<Offer>, n: nat, now: int)
    requires |offers| == n + 1
    ensures |Standing(offers, now)| == |Standing(offers[..n], now)| + OutstandingOne(now)(offers[n])
  {
    var rest := Standing(offers[..n], now);
    assert forall i: nat :: i < n ==> offers[..n][i] == offers[i];
    if offers[n].status == Sent && now < offers[n].expiresAt {
      assert Standing(offers, now) == rest + {n};
    } else {
      assert Standing(offers, now) == rest;
    }
  }

  /** How many offers should stand: one an open slot in the head start, half as many again after it, rounded up. */
  predicate Wanted(c: Campaign, headStartEnds: Option<int>, now: int, wanted: int)
  {
    var open := c.slotsTotal - c.slotsFilled;
    if open <= 0 then wanted == 0
    else if headStartEnds != None && now < headStartEnds.value then wanted == open
    else 3 * open <= 2 * wanted < 3 * open + 2
  }

  /**
   * A pass on a live campaign sends offers to the top of the ranking, as many as are wanted beyond those that stand; on
   * any other it does nothing.
   */
  lemma AllocationInFull(w: World, now: int, headStartEnds: Option<int>, ranked: seq<nat>, terms: OfferTerms,
                         wanted: int)
    returns (k: nat, n: nat)
    requires Wanted(w.campaign, headStartEnds, now, wanted)
    ensures var missing := wanted - |Standing(w.campaign.offers, now)|;
            n == if missing <= 0 then 0 else if missing < |ranked| then missing else |ranked|
    ensures n <= |ranked| && StopsAt(ranked[..n], terms.qualified, k)
    ensures var (c, w') := (w.campaign, Allocate(w, now, headStartEnds, ranked, terms));
            if c.status == Live && c.slots != [] && c.slotsFilled < c.slotsTotal
            then w'.books == w.books && AddsOffers(c, w'.campaign, ranked[..n][..k], terms)
            else w' == w
  {
    var c := w.campaign;
    StandingIsCounted(c.offers, now);
    var toSend := Max(wanted - |Standing(c.offers, now)|, 0);
    n := Min(toSend, |ranked|);
    k := SendingInFull(w, ranked[..n], terms);
  }
}
