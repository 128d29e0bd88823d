/**
 * A whole run from a fresh campaign that finalises over a rejected post and ends in an approval refused for lack of
 * funds, and the steps that runs of this kind are made of. Offers are made at a take rate of 30%; the approvals of this
 * run settle at 50%, as after a change of the rate configuration.
 */
module CampaignTraces {
  import opened Common
  import opened Ledger
  import opened Delivery
  import opened Campaigns
  import opened CampaignRows
  import opened CampaignMoney
  import Pricing
  import Quotes

  // ---- The setting: one kobo of price per unit of reach, 100 reach a post ----

  const SEED := Books([Account(RaliaRevenue, None), Account(BankClearing, None)], [])

  const TERMS := Quotes.Terms(
    Pricing.Awareness, Pricing.Filters([], [], None, None, [], [], [], [], 0, []),
    Pricing.PricingConfig(1000, map[Pricing.Awareness := 100], 0, 100, 30), 100, 0)

  const OFFERS := OfferTerms(30, 100, 1000, {7, 8})

  const CLOCK := Clock(0, 0, 10)

  const APPROVAL := ApprovalTerms(Pricing.SettlementConfig(50, 50), 100)

  lemma RunSnoc(w: World, actions: seq<Action>, a: Action)
    ensures RunWorld(w, actions + [a]) == Step(RunWorld(w, actions), a)
  {
    assert (actions + [a])[..|actions|] == actions;
  }

  lemma UnitPrice()
    ensures Pricing.SlotPrice(100, TERMS.objective, TERMS.filters, TERMS.config) == Ok(100)
  {
    var d := Pricing.Rate(TERMS.objective, TERMS.filters, TERMS.config);
    assert d == Pricing.PRICE_SCALE;
    Pricing.ExactQuotient(100, d, Pricing.SlotPrice(100, TERMS.objective, TERMS.filters, TERMS.config).value);
  }

  /** The part the runs share: quote, fund, approve, offer to promoters 7 and 8. */
  function Opening(price: nat): seq<Action>
  {
    [DoQuote(None, TERMS), DoFund(price, ClientKey("fund")), DoApproveCampaign, DoSendOffers([7, 8], OFFERS)]
  }

  function OfferTo(promoter: nat): Offer { Offer(promoter, 70, 100, 100, 1000, Sent) }

  function Begin(slots: nat, recurring: bool, posts: nat, endsAt: Option<int>): World
  {
    World(SEED, NewCampaign(0, 0, slots, recurring, posts, None, endsAt))
  }

  lemma BeginIsFresh(slots: nat, recurring: bool, posts: nat, endsAt: Option<int>)
    ensures FreshStart(Begin(slots, recurring, posts, endsAt))
  {
    assert Sound(SEED);
  }

  /** The campaign as it stands after the opening. */
  function Opened(slots: nat, recurring: bool, posts: nat, endsAt: Option<int>, price: nat): Campaign
  {
    NewCampaign(0, 0, slots, recurring, posts, None, endsAt)
    .(status := Live, price := Some(price), escrow := Some(2), target := price,
      slots := FreshSlots(slots, 100, posts), offers := [OfferTo(7), OfferTo(8)])
  }

  lemma FeeIs70()
    ensures Pricing.SplitFee(100, 30).fee == 70
  {
  }

  predicate OnlyKeys(log: seq<Posting>, used: set<Key>) { forall i :: 0 <= i < |log| ==> log[i].key in used }

  /** The campaign stands at c with `balance` in escrow, and only certain keys have been used. */
  ghost predicate At(w: World, c: Campaign, used: set<Key>, balance: int)
  {
    w.campaign == c && OnlyKeys(w.books.log, used) && MoneyOk(w) && Funded(c)
      && Balance(w.books, EscrowOf(w)) == balance
  }

  lemma QuoteRuns(slots: nat, recurring: bool, posts: nat, endsAt: Option<int>, price: nat)
    requires NormalizePosts(recurring, posts) == posts && price == Quotes.Times(100, Quotes.Times(slots, posts))
    ensures Step(Begin(slots, recurring, posts, endsAt), DoQuote(None, TERMS))
            == World(SEED, Begin(slots, recurring, posts, endsAt).campaign
                           .(status := Quoted, price := Some(price), target := Quotes.TargetReach(slots, 100, posts),
                             slots := FreshSlots(slots, 100, posts)))
  {
    UnitPrice();
    assert Quotes.ReachPerSlot(TERMS) == 100;
  }

  lemma PostUsesKey(b: Books, p: Posting, used: set<Key>)
    requires forall i :: 0 <= i < |b.log| ==> b.log[i].key in used
    ensures forall i :: 0 <= i < |Ledger.Post(b, p).0.log| ==> Ledger.Post(b, p).0.log[i].key in used + {p.key}
  {
  }

  lemma SeedOpens()
    ensures GetOrCreate(SEED, CampaignEscrow, 0)
            == (SEED.(accounts := SEED.accounts + [Account(CampaignEscrow, Some(0))]), 2)
    ensures Platform(GetOrCreate(SEED, CampaignEscrow, 0).0, BankClearing) == Some(1)
  {
  }

  lemma FundUsesKey(w: World, price: nat, key: Key)
    requires w.books == SEED && w.campaign.escrow.None? && w.campaign.id == 0
    ensures OnlyKeys(FundEscrow(w, price, key).0.books.log, {key})
    ensures FundEscrow(w, price, key).1.Success? && FundEscrow(w, price, key).0.campaign != w.campaign ==>
              FundEscrow(w, price, key).0.campaign == w.campaign.(status := UnderReview, escrow := Some(2))
  {
    SeedOpens();
    PostUsesKey(GetOrCreate(SEED, CampaignEscrow, 0).0, FundPosting(0, 1, 2, price, key), {});
    assert {} + {key} == {key};
  }

  lemma FundIsStep(w: World, price: nat)
    requires w.campaign.status.Quoted? && w.campaign.price == Some(price) && !Has(w.books.log, ClientKey("fund"))
    ensures Step(w, DoFund(price, ClientKey("fund"))) == FundEscrow(w, price, ClientKey("fund")).0
  {
  }

  lemma FundRuns(w: World, price: nat)
    requires w.books == SEED && MoneyOk(w) && w.campaign.status.Quoted? && w.campaign.price == Some(price) && 0 < price
             && w.campaign.id == 0
    ensures At(Step(w, DoFund(price, ClientKey("fund"))), w.campaign.(status := UnderReview, escrow := Some(2)),
            {ClientKey("fund")}, price)
  {
    FundIsStep(w, price);
    FundKeepsMoney(w, price, ClientKey("fund"));
    FundUsesKey(w, price, ClientKey("fund"));
  }

  lemma OffersRun(c: Campaign)
    requires c.status.Live? && c.slots != [] && UnitOf(c) == 100 && c.offers == []
    ensures OfferEach(c, [7, 8], OFFERS) == (c.(offers := [OfferTo(7), OfferTo(8)]), Success)
  {
    FeeIs70();
    var c1 := c.(offers := [OfferTo(7)]);
    assert c.offers + [OfferTo(7)] == [OfferTo(7)] && [OfferTo(7)] + [OfferTo(8)] == [OfferTo(7), OfferTo(8)];
    assert [7, 8][1..] == [8] && [8][1..] == [];
    assert OfferEach(c1, [8], OFFERS) == (c.(offers := [OfferTo(7), OfferTo(8)]), Success);
  }

  lemma GoesLive(w: World, c: Campaign, used: set<Key>, balance: int)
    requires At(w, c, used, balance) && c.status.UnderReview? && c.slots != [] && UnitOf(c) == 100 && c.offers == []
    ensures At(Step(Step(w, DoApproveCampaign), DoSendOffers([7, 8], OFFERS)),
               c.(status := Live, offers := [OfferTo(7), OfferTo(8)]), used, balance)
  {
    var live := c.(status := Live);
    OffersRun(live);
    assert Step(w, DoApproveCampaign) == w.(campaign := live);
    RowsOnlyKeepsMoney(w, live.(offers := [OfferTo(7), OfferTo(8)]));
  }

  lemma FourSteps(w: World, a1: Action, a2: Action, a3: Action, a4: Action)
    ensures RunWorld(w, [a1, a2, a3, a4]) == Step(Step(Step(Step(w, a1), a2), a3), a4)
  {
    RunSnoc(w, [], a1);
    RunSnoc(w, [a1], a2);
    RunSnoc(w, [a1, a2], a3);
    RunSnoc(w, [a1, a2, a3], a4);
    assert [] + [a1] == [a1] && [a1] + [a2] == [a1, a2] && [a1, a2] + [a3] == [a1, a2, a3];
    assert [a1, a2, a3] + [a4] == [a1, a2, a3, a4];
  }

  lemma OpeningRuns(slots: nat, recurring: bool, posts: nat, endsAt: Option<int>, price: nat)
    requires 1 <= slots && NormalizePosts(recurring, posts) == posts
             && price == Quotes.Times(100, Quotes.Times(slots, posts))
    requires Quotes.TargetReach(slots, 100, posts) == price && 0 < price
    ensures At(RunWorld(Begin(slots, recurring, posts, endsAt), Opening(price)),
            Opened(slots, recurring, posts, endsAt, price),
               {ClientKey("fund")}, price)
  {
    var w0 := Begin(slots, recurring, posts, endsAt);
    FourSteps(w0, DoQuote(None, TERMS), DoFund(price, ClientKey("fund")), DoApproveCampaign,
      DoSendOffers([7, 8], OFFERS));
    QuoteRuns(slots, recurring, posts, endsAt, price);
    BeginIsFresh(slots, recurring, posts, endsAt);
    FreshStartIsOk(w0);
    var c1 :=
      w0.campaign.(status := Quoted, price := Some(price), target := price, slots := FreshSlots(slots, 100, posts));
    RowsOnlyKeepsMoney(w0, c1);
    FundRuns(World(SEED, c1), price);
    GoesLive(Step(World(SEED, c1), DoFund(price, ClientKey("fund"))), c1.(status := UnderReview, escrow := Some(2)),
             {ClientKey("fund")}, price);
  }

  // ---- One step at a time ----

  lemma AcceptRuns(w: World, c: Campaign, used: set<Key>, balance: int, offer: nat, k: nat, clock: Clock)
    requires At(w, c, used, balance) && c.status.Live?
    requires offer < |c.offers| && c.offers[offer].status.Sent? && c.offers[offer].expiresAt == 1000
             && clock.now <= 1000
    requires k < |c.slots| && FirstOpen(c.slots) == k && 1 <= c.slots[k].posts
    ensures At(Step(w, DoAccept(offer, c.offers[offer].promoter, clock)),
               c.(slots := c.slots[k := c.slots[k].(status := Filled)],
                  offers := c.offers[offer := c.offers[offer].(status := Accepted)],
                  assignments := c.assignments + [Assignment(offer, c.offers[offer].promoter, Some(k), InProgress,
                                                             NewPosts(c, c.offers[offer], c.slots[k].posts, clock))],
                  slotsFilled := c.slotsFilled + 1),
               used, balance)
  {
    RowsOnlyKeepsMoney(w, Step(w, DoAccept(offer, c.offers[offer].promoter, clock)).campaign);
  }

  lemma SubmitRuns(w: World, c: Campaign, used: set<Key>, balance: int, a: nat, p: nat)
    requires At(w, c, used, balance) && a < |c.assignments| && !c.assignments[a].status.Cancelled?
    requires p < |c.assignments[a].posts| && Outstanding(c.assignments[a].posts[p].status)
    ensures At(Step(w, DoSubmit(a, c.assignments[a].promoter, Some(p))),
               SetPost(c, a, p, Submitted).(submissions := c.submissions + [Submission(a, p, Undecided, 0)]), used,
                 balance)
  {
    RowsOnlyKeepsMoney(w, Step(w, DoSubmit(a, c.assignments[a].promoter, Some(p))).campaign);
  }

  lemma RejectRuns(w: World, c: Campaign, used: set<Key>, balance: int, s: nat)
    requires At(w, c, used, balance) && GoodSubmission(c, s) && c.submissions[s].verdict.Undecided?
    ensures At(Step(w, DoReject(s)),
               SetPost(c, c.submissions[s].assignment, c.submissions[s].post, Rejected)
               .(submissions := c.submissions[s := c.submissions[s].(verdict := Failed)]), used, balance)
  {
    RowsOnlyKeepsMoney(w, Step(w, DoReject(s)).campaign);
  }

  /** What a whole post of 100 kobo settles to. */
  function SettledWhole(settlement: Pricing.SettlementConfig): Pricing.Settlement
  {
    var split := Pricing.SplitFee(100, settlement.takeRate);
    Pricing.Settlement(true, 100, split.fee, split.take, 0)
  }

  lemma FullPost(verified: nat, settlement: Pricing.SettlementConfig)
    requires 100 <= verified
    ensures Pricing.SettleDelivery(100, verified, 100, settlement) == Ok(SettledWhole(settlement))
    ensures 0 <= SettledWhole(settlement).fee && 0 <= SettledWhole(settlement).take
    ensures SettledWhole(settlement).fee + SettledWhole(settlement).take == 100
  {
    assert Min(verified, 100) == 100;
    Pricing.FeeWithinPrice(100, settlement.takeRate);
  }

  lemma SettleRuns(w: World, c: Campaign, used: set<Key>, balance: int, s: nat, verified: nat, key: Key, promoter: nat,
                   settlement: Pricing.SettlementConfig)
    requires At(w, c, used, balance) && OnAir(c) && GoodSubmission(c, s) && key.ClientKey? && !Blank(key)
             && key !in used
    requires promoter < |w.books.accounts| && w.books.accounts[promoter].kind.PromoterAvailable?
    ensures var paid := PostSettlement(w, s, verified, key, promoter, SettledWhole(settlement));
            if 100 <= balance then
              paid.paidNow && At(paid.world, MarkApproved(c, s, verified), used + {key}, balance - 100)
            else !paid.paidNow && paid.reply == LedgerRefused(InsufficientFunds)
  {
    FullPost(100, settlement);
    SettlementPosted(w, s, verified, key, promoter, SettledWhole(settlement));
    var revenue := Platform(w.books, RaliaRevenue).value;
    PostUsesKey(w.books, SettlePosting(s, c.escrow.value, promoter, revenue, SettledWhole(settlement).fee,
                                      SettledWhole(settlement).take, key), used);
    MarkKeepsHeader(c, s, verified);
  }

  lemma OpeningStaysAt(w: World, c: Campaign, used: set<Key>, balance: int, promoter: nat)
    requires At(w, c, used, balance)
    ensures var (b, a) := GetOrCreate(w.books, PromoterAvailable, promoter);
            At(w.(books := b), c, used, balance) && IsAccount(b, a, PromoterAvailable, Some(promoter))
  {
    OpeningKeepsMoney(w, PromoterAvailable, promoter);
  }

  /** A whole post of 100 kobo, delivered in full: paid while escrow holds that much, refused once it does not. */
  lemma PayRuns(w: World, c: Campaign, used: set<Key>, balance: int, s: nat, verified: nat, key: Key,
                settlement: Pricing.SettlementConfig)
    requires At(w, c, used, balance) && OnAir(c) && GoodSubmission(c, s) && c.submissions[s].verdict.Undecided?
    requires JudgedPost(c, s).gross == 100 && JudgedPost(c, s).promised == 100 && 100 <= verified
    requires key.ClientKey? && !Blank(key) && key !in used
    ensures var paid := PayForPost(w, s, verified, key, settlement);
            if 100 <= balance then
              paid.paidNow && At(paid.world, MarkApproved(c, s, verified), used + {key}, balance - 100)
            else !paid.paidNow && paid.reply == LedgerRefused(InsufficientFunds)
  {
    FullPost(verified, settlement);
    PayUnfolds(w, s, verified, key, settlement);
    var promoter := c.assignments[c.submissions[s].assignment].promoter;
    var (b, a) := GetOrCreate(w.books, PromoterAvailable, promoter);
    OpeningStaysAt(w, c, used, balance, promoter);
    SettleRuns(w.(books := b), c, used, balance, s, verified, key, a, settlement);
  }

  lemma ApproveIsRefused(w: World, c: Campaign, used: set<Key>, balance: int, s: nat, verified: nat, key: Key)
    requires At(w, c, used, balance) && OnAir(c) && GoodSubmission(c, s) && c.submissions[s].verdict.Undecided?
    requires JudgedPost(c, s).gross == 100 && JudgedPost(c, s).promised == 100 && 100 <= verified && balance < 100
    requires key.ClientKey? && !Blank(key) && key !in used
    ensures ApproveSubmission(w, s, verified, key, APPROVAL).1 == LedgerRefused(InsufficientFunds)
  {
    PayRuns(w, c, used, balance, s, verified, key, APPROVAL.settlement);
  }

  function PaidWorld(w: World, s: nat, verified: nat, key: Key, settlement: Pricing.SettlementConfig): World
  {
    PayForPost(w, s, verified, key, settlement).world
  }

  lemma ApproveDecides(w: World, s: nat, verified: nat, key: Key, e: nat, terms: ApprovalTerms)
    requires w.campaign.status.Live? && key.ClientKey? && w.campaign.escrow == Some(e)
    requires PayForPost(w, s, verified, key, terms.settlement).paidNow
             && e < |PaidWorld(w, s, verified, key, terms.settlement).books.accounts|
    ensures Step(w, DoApprove(s, verified, key, terms))
            == Decide(PaidWorld(w, s, verified, key, terms.settlement), e, terms.reachPerPost).0
  {
    StepIsHandler(w, DoApprove(s, verified, key, terms));
    PaidOnLive(w, s, verified, key, e, terms, PayForPost(w, s, verified, key, terms.settlement));
  }

  lemma PaidOnLive(w: World, s: nat, verified: nat, key: Key, e: nat, terms: ApprovalTerms, paid: Payment)
    requires w.campaign.status.Live? && w.campaign.escrow == Some(e)
    requires paid == PayForPost(w, s, verified, key, terms.settlement) && paid.paidNow
    requires e < |paid.world.books.accounts|
    ensures ApproveSubmission(w, s, verified, key, terms) == Decide(paid.world, e, terms.reachPerPost)
  {
  }

  lemma EscrowIsKnown(w: World, c: Campaign, used: set<Key>, balance: int)
    requires At(w, c, used, balance)
    ensures c.escrow == Some(EscrowOf(w)) && EscrowOf(w) < |w.books.accounts|
  {
  }

  /** Approving while other work is in flight. */
  lemma ApproveRuns(w: World, c: Campaign, used: set<Key>, balance: int, s: nat, verified: nat, key: Key,
                    terms: ApprovalTerms)
    requires At(w, c, used, balance) && c.status.Live? && GoodSubmission(c, s) && c.submissions[s].verdict.Undecided?
    requires JudgedPost(c, s).gross == 100 && JudgedPost(c, s).promised == 100 && 100 <= verified && 100 <= balance
    requires key.ClientKey? && !Blank(key) && key !in used
    requires WorkInFlight(MarkApproved(c, s, verified))
    ensures var c' := MarkApproved(c, s, verified);
            At(Step(w, DoApprove(s, verified, key, terms)), c'.(status := if ReachMet(c') then Fulfilled else Live),
              used + {key}, balance - 100)
  {
    PayRuns(w, c, used, balance, s, verified, key, terms.settlement);
    MarkKeepsHeader(c, s, verified);
    EscrowIsKnown(w, c, used, balance);
    var mid, c' := PaidWorld(w, s, verified, key, terms.settlement), MarkApproved(c, s, verified);
    EscrowIsKnown(mid, c', used + {key}, balance - 100);
    ApproveDecides(w, s, verified, key, EscrowOf(w), terms);
    InFlightDecides(mid, c', used + {key}, balance - 100, terms.reachPerPost);
  }

  lemma InFlightDecides(w: World, c: Campaign, used: set<Key>, balance: int, reachPerPost: nat)
    requires At(w, c, used, balance) && c.status.Live? && WorkInFlight(c)
    ensures At(Decide(w, EscrowOf(w), reachPerPost).0, c.(status := if ReachMet(c) then Fulfilled else Live),
            used, balance)
  {
    RowsOnlyKeepsMoney(w, c.(status := if ReachMet(c) then Fulfilled else Live));
  }

  /** Approving the last piece of work, with the reach met: finalised, and the remainder retained. */
  lemma ApproveFinishes(w: World, c: Campaign, used: set<Key>, balance: int, s: nat, verified: nat, key: Key)
    requires At(w, c, used, balance) && c.status.Live? && GoodSubmission(c, s) && c.submissions[s].verdict.Undecided?
    requires JudgedPost(c, s).gross == 100 && JudgedPost(c, s).promised == 100 && 100 <= verified && 100 <= balance
    requires key.ClientKey? && !Blank(key) && key !in used
    requires !WorkInFlight(MarkApproved(c, s, verified)) && ReachMet(MarkApproved(c, s, verified))
    ensures At(Step(w, DoApprove(s, verified, key, APPROVAL)), MarkApproved(c, s, verified).(status := Fulfilled),
               used + {key} + {RetainKey(c.id)}, 0)
  {
    PayRuns(w, c, used, balance, s, verified, key, APPROVAL.settlement);
    MarkKeepsHeader(c, s, verified);
    EscrowIsKnown(w, c, used, balance);
    var mid, c' := PaidWorld(w, s, verified, key, APPROVAL.settlement), MarkApproved(c, s, verified);
    EscrowIsKnown(mid, c', used + {key}, balance - 100);
    ApproveDecides(w, s, verified, key, EscrowOf(w), APPROVAL);
    FinalDecides(mid, c', used + {key}, balance - 100);
  }

  lemma FinalDecides(w: World, c: Campaign, used: set<Key>, balance: int)
    requires At(w, c, used, balance) && c.status.Live? && !WorkInFlight(c) && ReachMet(c)
    ensures At(Decide(w, EscrowOf(w), APPROVAL.reachPerPost).0, c.(status := Fulfilled), used + {RetainKey(c.id)}, 0)
  {
    DecideKeepsMoney(w, APPROVAL.reachPerPost);
    RetainLeavesRows(w.(campaign := c.(status := Fulfilled)), EscrowOf(w));
    RetainUsesKey(w.(campaign := c.(status := Fulfilled)), EscrowOf(w), used);
  }

  lemma RetainUsesKey(w: World, e: nat, used: set<Key>)
    requires e < |w.books.accounts| && OnlyKeys(w.books.log, used)
    ensures OnlyKeys(RetainRemainder(w, e).0.books.log, used + {RetainKey(w.campaign.id)})
  {
    var remaining := Balance(w.books, e);
    if 0 < remaining && Platform(w.books, RaliaRevenue).Some? {
      PostUsesKey(w.books, RetainPosting(w.campaign.id, e, Platform(w.books, RaliaRevenue).value, remaining), used);
    }
  }

  // ---- A rejected post left behind: the campaign is finalised, and the post then made good ----

  function OnePost(status: PostStatus): DeliverySlot { DeliverySlot(1, 10, 100, 70, 100, status) }

  function Worker(offer: nat, promoter: nat, slot: nat, status: PostStatus): Assignment
  {
    Assignment(offer, promoter, Some(slot), RollupOf([OnePost(status)]), [OnePost(status)])
  }

  /** Two promoters hold the two slots, one post each. */
  function TwoAtWork(first: PostStatus, second: PostStatus, submissions: seq<Submission>,
                     status: CampaignStatus): Campaign
  {
    Opened(2, false, 1, None, 200)
    .(status := status, slotsFilled := 2, slots := [Slot(Filled, 100, 1), Slot(Filled, 100, 1)],
      offers := [OfferTo(7).(status := Accepted), OfferTo(8).(status := Accepted)],
      assignments := [Worker(0, 7, 0, first), Worker(1, 8, 1, second)], submissions := submissions)
  }

  function StrandedRun(): seq<Action>
  {
    Opening(200)
    + [DoAccept(0, 7, CLOCK), DoAccept(1, 8, CLOCK)]
    + [DoSubmit(0, 7, Some(0)), DoReject(0), DoSubmit(1, 8, Some(0))]
    + [DoApprove(1, 200, ClientKey("first"), APPROVAL), DoSubmit(0, 7, Some(0))]
  }

  lemma OnePostPending(c: Campaign)
    requires c.startsAt.None? && c.endsAt.None?
    ensures NewPosts(c, OfferTo(7), 1, CLOCK) == [OnePost(Pending)] == NewPosts(c, OfferTo(8), 1, CLOCK)
    ensures RollupOf([OnePost(Pending)]) == InProgress
  {
    assert Views([OnePost(Pending)])[0].status.Pending?;
    RollupReadsBack(Views([OnePost(Pending)]));
  }

  lemma BothAccept(w: World)
    requires At(w, Opened(2, false, 1, None, 200), {ClientKey("fund")}, 200)
    ensures At(Step(Step(w, DoAccept(0, 7, CLOCK)), DoAccept(1, 8, CLOCK)), TwoAtWork(Pending, Pending, [], Live),
            {ClientKey("fund")}, 200)
  {
    var c, used := Opened(2, false, 1, None, 200), {ClientKey("fund")};
    assert c.slots == [Slot(Open, 100, 1), Slot(Open, 100, 1)];
    AcceptRuns(w, c, used, 200, 0, 0, CLOCK);
    var w1 := Step(w, DoAccept(0, 7, CLOCK));
    var c1 := w1.campaign;
    OnePostPending(c);
    OnePostPending(c1);
    assert c1.slots == [Slot(Filled, 100, 1), Slot(Open, 100, 1)];
    assert c1.slots[1..] == [Slot(Open, 100, 1)];
    assert FirstOpen(c1.slots) == 1;
    AcceptRuns(w1, c1, used, 200, 1, 1, CLOCK);
    var c2 := Step(w1, DoAccept(1, 8, CLOCK)).campaign;
    assert c2.slots == [Slot(Filled, 100, 1), Slot(Filled, 100, 1)];
    assert c2.assignments == [Worker(0, 7, 0, Pending), Worker(1, 8, 1, Pending)];
    assert c2.offers == [OfferTo(7).(status := Accepted), OfferTo(8).(status := Accepted)];
    assert c2 == TwoAtWork(Pending, Pending, [], Live);
  }

  lemma SetTwo(first: PostStatus, second: PostStatus, submissions: seq<Submission>, status: CampaignStatus, a: nat,
               p: PostStatus)
    requires a < 2
    ensures SetPost(TwoAtWork(first, second, submissions, status), a, 0, p)
            == TwoAtWork(if a == 0 then p else first, if a == 1 then p else second, submissions, status)
  {
    var c := TwoAtWork(first, second, submissions, status);
    var x := c.assignments[a].posts[0 := c.assignments[a].posts[0].(status := p)];
    assert x == [OnePost(p)];
  }

  const PROOF0 := Submission(0, 0, Undecided, 0)
  const FAILED0 := Submission(0, 0, Failed, 0)
  const PROOF1 := Submission(1, 0, Undecided, 0)
  const PASSED1 := Submission(1, 0, Passed, 200)

  lemma NotCancelled(status: PostStatus)
    requires !status.Missed?
    ensures !RollupOf([OnePost(status)]).Cancelled?
  {
    RollupNotCancelled([OnePost(status)], 0);
  }

  lemma FirstSubmits(w: World, used: set<Key>)
    requires At(w, TwoAtWork(Pending, Pending, [], Live), used, 200)
    ensures At(Step(w, DoSubmit(0, 7, Some(0))), TwoAtWork(Submitted, Pending, [PROOF0], Live), used, 200)
  {
    NotCancelled(Pending);
    SubmitRuns(w, TwoAtWork(Pending, Pending, [], Live), used, 200, 0, 0);
    SetTwo(Pending, Pending, [], Live, 0, Submitted);
  }

  lemma FirstIsRejected(w: World, used: set<Key>)
    requires At(w, TwoAtWork(Submitted, Pending, [PROOF0], Live), used, 200)
    ensures At(Step(w, DoReject(0)), TwoAtWork(Rejected, Pending, [FAILED0], Live), used, 200)
  {
    RejectRuns(w, TwoAtWork(Submitted, Pending, [PROOF0], Live), used, 200, 0);
    SetTwo(Submitted, Pending, [PROOF0], Live, 0, Rejected);
    assert [PROOF0][0 := FAILED0] == [FAILED0];
  }

  lemma SecondSubmits(w: World, used: set<Key>)
    requires At(w, TwoAtWork(Rejected, Pending, [FAILED0], Live), used, 200)
    ensures At(Step(w, DoSubmit(1, 8, Some(0))), TwoAtWork(Rejected, Submitted, [FAILED0, PROOF1], Live), used, 200)
  {
    NotCancelled(Pending);
    SubmitRuns(w, TwoAtWork(Rejected, Pending, [FAILED0], Live), used, 200, 1, 0);
    SetTwo(Rejected, Pending, [FAILED0], Live, 1, Submitted);
    assert [FAILED0] + [PROOF1] == [FAILED0, PROOF1];
  }

  /** The first promoter's proof is rejected, the second one's is handed in. */
  lemma ProofsComeIn(w: World)
    requires At(w, TwoAtWork(Pending, Pending, [], Live), {ClientKey("fund")}, 200)
    ensures At(Step(Step(Step(w, DoSubmit(0, 7, Some(0))), DoReject(0)), DoSubmit(1, 8, Some(0))),
               TwoAtWork(Rejected, Submitted, [FAILED0, PROOF1], Live), {ClientKey("fund")}, 200)
  {
    var used := {ClientKey("fund")};
    FirstSubmits(w, used);
    FirstIsRejected(Step(w, DoSubmit(0, 7, Some(0))), used);
    SecondSubmits(Step(Step(w, DoSubmit(0, 7, Some(0))), DoReject(0)), used);
  }

  lemma Finished(c: Campaign)
    requires c == TwoAtWork(Rejected, Approved, [FAILED0, PASSED1], Live)
    ensures !WorkInFlight(c) && ReachMet(c)
  {
    assert [FAILED0, PASSED1][..1] == [FAILED0];
    assert Sum(VerifiedReach, [FAILED0]) == 0;
    assert TotalVerified(c) == 200;
    forall i | 0 <= i < |c.assignments| ensures !PostsInFlight(c.assignments[i].posts) {}
    assert !SlotsOpen(c.slots);
  }

  /**
   * The second promoter's approval finishes the campaign; the first one's post was not counted and its money is gone.
   */
  lemma FinishedTooEarly(w: World)
    requires At(w, TwoAtWork(Rejected, Submitted, [FAILED0, PROOF1], Live), {ClientKey("fund")}, 200)
    ensures At(Step(Step(w, DoApprove(1, 200, ClientKey("first"), APPROVAL)), DoSubmit(0, 7, Some(0))),
               TwoAtWork(Submitted, Approved, [FAILED0, PASSED1, PROOF0], Fulfilled),
               {ClientKey("fund"), ClientKey("first"), RetainKey(0)}, 0)
  {
    var c, used := TwoAtWork(Rejected, Submitted, [FAILED0, PROOF1], Live), {ClientKey("fund")};
    SetTwo(Rejected, Submitted, [FAILED0, PROOF1], Live, 1, Approved);
    var c1 := TwoAtWork(Rejected, Approved, [FAILED0, PASSED1], Live);
    assert [FAILED0, PROOF1][1 := PASSED1] == [FAILED0, PASSED1];
    assert MarkApproved(c, 1, 200) == c1;
    Finished(c1);
    ApproveFinishes(w, c, used, 200, 1, 200, ClientKey("first"));
    var w1, c2 :=
      Step(w, DoApprove(1, 200, ClientKey("first"), APPROVAL)),
      TwoAtWork(Rejected, Approved, [FAILED0, PASSED1], Fulfilled);
    var used' := {ClientKey("fund"), ClientKey("first"), RetainKey(0)};
    assert used + {ClientKey("first")} + {RetainKey(0)} == used';
    NotCancelled(Rejected);
    SubmitRuns(w1, c2, used', 0, 0, 0);
    SetTwo(Rejected, Approved, [FAILED0, PASSED1], Fulfilled, 0, Submitted);
    assert [FAILED0, PASSED1] + [PROOF0] == [FAILED0, PASSED1, PROOF0];
  }

  lemma TwoMore(w: World, done: seq<Action>, a: Action, b: Action)
    ensures RunWorld(w, done + [a, b]) == Step(Step(RunWorld(w, done), a), b)
  {
    RunSnoc(w, done, a);
    RunSnoc(w, done + [a], b);
    assert done + [a] + [b] == done + [a, b];
  }

  lemma ThreeMore(w: World, done: seq<Action>, a: Action, b: Action, c: Action)
    ensures RunWorld(w, done + [a, b, c]) == Step(Step(Step(RunWorld(w, done), a), b), c)
  {
    TwoMore(w, done, a, b);
    RunSnoc(w, done + [a, b], c);
    assert done + [a, b] + [c] == done + [a, b, c];
  }

  predicate Without(actions: seq<Action>, sweeps: bool)
  {
    forall k :: 0 <= k < |actions| ==> if sweeps then !actions[k].DoSweep? else !actions[k].DoReject?
  }

  lemma StrandedAccepts()
    ensures At(RunWorld(Begin(2, false, 1, None), Opening(200) + [DoAccept(0, 7, CLOCK), DoAccept(1, 8, CLOCK)]),
               TwoAtWork(Pending, Pending, [], Live), {ClientKey("fund")}, 200)
  {
    var w := Begin(2, false, 1, None);
    OpeningRuns(2, false, 1, None, 200);
    BothAccept(RunWorld(w, Opening(200)));
    TwoMore(w, Opening(200), DoAccept(0, 7, CLOCK), DoAccept(1, 8, CLOCK));
  }

  lemma StrandedProofs(done: seq<Action>)
    requires At(RunWorld(Begin(2, false, 1, None), done), TwoAtWork(Pending, Pending, [], Live), {ClientKey("fund")},
             200)
    ensures At(RunWorld(Begin(2, false, 1, None),
            done + [DoSubmit(0, 7, Some(0)), DoReject(0), DoSubmit(1, 8, Some(0))]),
               TwoAtWork(Rejected, Submitted, [FAILED0, PROOF1], Live), {ClientKey("fund")}, 200)
  {
    var w := Begin(2, false, 1, None);
    ProofsComeIn(RunWorld(w, done));
    ThreeMore(w, done, DoSubmit(0, 7, Some(0)), DoReject(0), DoSubmit(1, 8, Some(0)));
  }

  lemma StrandedEnds(done: seq<Action>)
    requires At(RunWorld(Begin(2, false, 1, None), done), TwoAtWork(Rejected, Submitted, [FAILED0, PROOF1], Live),
             {ClientKey("fund")}, 200)
    ensures At(RunWorld(Begin(2, false, 1, None),
            done + [DoApprove(1, 200, ClientKey("first"), APPROVAL), DoSubmit(0, 7, Some(0))]),
               TwoAtWork(Submitted, Approved, [FAILED0, PASSED1, PROOF0], Fulfilled),
               {ClientKey("fund"), ClientKey("first"), RetainKey(0)}, 0)
  {
    var w := Begin(2, false, 1, None);
    FinishedTooEarly(RunWorld(w, done));
    TwoMore(w, done, DoApprove(1, 200, ClientKey("first"), APPROVAL), DoSubmit(0, 7, Some(0)));
  }

  lemma StrandedRunEnds()
    ensures At(RunWorld(Begin(2, false, 1, None), StrandedRun()),
            TwoAtWork(Submitted, Approved, [FAILED0, PASSED1, PROOF0], Fulfilled),
               {ClientKey("fund"), ClientKey("first"), RetainKey(0)}, 0)
  {
    StrandedAccepts();
    var o2 := Opening(200) + [DoAccept(0, 7, CLOCK), DoAccept(1, 8, CLOCK)];
    StrandedProofs(o2);
    var o4 := o2 + [DoSubmit(0, 7, Some(0)), DoReject(0), DoSubmit(1, 8, Some(0))];
    StrandedEnds(o4);
  }

  lemma LateProofIsRefused(w: World)
    requires At(w, TwoAtWork(Submitted, Approved, [FAILED0, PASSED1, PROOF0], Fulfilled),
             {ClientKey("fund"), ClientKey("first"), RetainKey(0)}, 0)
    ensures ApproveSubmission(w, 2, 100, ClientKey("second"), APPROVAL).1 == LedgerRefused(InsufficientFunds)
  {
    ApproveIsRefused(w, w.campaign, {ClientKey("fund"), ClientKey("first"), RetainKey(0)}, 0, 2, 100,
      ClientKey("second"));
  }

  lemma NeverSwept()
    ensures Without(StrandedRun(), true)
  {
  }

  /**
   * No sweep ever ran, so nothing was pulled; one post was REJECTED when the campaign was finalised; and an approval is
   * refused.
   */
  lemma RejectedPostIsStranded()
    ensures FreshStart(Begin(2, false, 1, None)) && Without(StrandedRun(), true)
    ensures ApproveSubmission(RunWorld(Begin(2, false, 1, None), StrandedRun()), 2, 100, ClientKey("second"),
            APPROVAL).1
            == LedgerRefused(InsufficientFunds)
  {
    var w := Begin(2, false, 1, None);
    BeginIsFresh(2, false, 1, None);
    NeverSwept();
    StrandedRunEnds();
    LateProofIsRefused(RunWorld(w, StrandedRun()));
  }
}
