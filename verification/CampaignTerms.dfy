/**
 * What was agreed stays agreed: the price funded is the one last quoted, every post carries the terms of the offer its
 * promoter was sent, and what it pays is settled at the rates in force when its proof is approved.
 */
module CampaignTerms {
  import opened Common
  import opened Ledger
  import opened Campaigns
  import opened CampaignRows
  import opened CampaignMoney
  import opened CampaignRuns
  import Pricing
  import Quotes
  import Withdrawals

  // ---- The quote ----

  predicate TakesQuote(w: World, action: Action) { action.DoQuote? && Respond(w, action).1.Success? }

  /** A new quote, or an edit that costs the campaign its quote. */
  predicate Requotes(w: World, action: Action)
  {
    TakesQuote(w, action) || (w.campaign.status.Quoted? && Step(w, action).campaign.status.Draft?)
  }

  predicate Priced(status: CampaignStatus) { status.Quoted? || status.UnderReview? || status.ChangesNeeded? }

  /** c stands on the quote taken when the campaign stood at `quoted`. */
  predicate CarriesQuote(c: Campaign, quoted: Campaign, exactPrice: Option<int>, terms: Quotes.Terms)
  {
    var q := Quotes.QuoteFor(quoted.posts, Max(0, quoted.slotsTotal), exactPrice, terms);
    && q.Ok? && c.posts == quoted.posts && c.price == Some(q.value.price) && c.target == q.value.target
    && UnitOf(c) == (if q.value.slots == 0 then 0 else q.value.unit)
    && (Priced(c.status) ==>
          c.slots == FreshSlots(q.value.slots, q.value.unit, quoted.posts) && c.slotsTotal == q.value.slots)
  }

  /** Nothing the quote fixed has changed from c to c'. */
  predicate SameTerms(c: Campaign, c': Campaign)
  {
    && !c.status.Draft? && c'.price == c.price && c'.target == c.target && c'.posts == c.posts
    && UnitOf(c') == UnitOf(c)
    && (Priced(c'.status) ==> Priced(c.status) && c'.slots == c.slots && c'.slotsTotal == c.slotsTotal)
  }

  lemma TakenQuoteIsCarried(w: World, exactPrice: Option<int>, terms: Quotes.Terms)
    requires TakeQuote(w, exactPrice, terms).1.Success?
    ensures CarriesQuote(TakeQuote(w, exactPrice, terms).0.campaign, w.campaign, exactPrice, terms)
  {
  }

  /** A campaign still on air with its price, target and posts. */
  predicate KeptOnAir(c: Campaign, c': Campaign)
  {
    OnAir(c) && OnAir(c') && c'.price == c.price && c'.target == c.target && c'.posts == c.posts
  }

  lemma MarkKeepsTerms(c: Campaign, s: nat, verified: nat)
    requires OnAir(c) && GoodSubmission(c, s)
    ensures KeptOnAir(c, MarkApproved(c, s, verified))
  {
  }

  lemma DecideKeepsTerms(w: World, e: nat, reachPerPost: nat)
    requires OnAir(w.campaign) && e < |w.books.accounts|
    ensures KeptOnAir(w.campaign, Decide(w, e, reachPerPost).0.campaign)
  {
    RetainLeavesRows(w.(campaign := w.campaign.(status := Fulfilled)), e);
  }

  lemma ApprovalKeepsTerms(w: World, s: nat, verified: int, key: Key, terms: ApprovalTerms)
    requires OnAir(w.campaign)
    ensures KeptOnAir(w.campaign, ApproveSubmission(w, s, verified, key, terms).0.campaign)
  {
    var paid := PayForPost(w, s, verified, key, terms.settlement);
    PayShape(w, s, verified, key, terms.settlement);
    if paid.paidNow {
      MarkKeepsTerms(w.campaign, s, verified);
      if w.campaign.status.Live? && w.campaign.escrow.Some? && w.campaign.escrow.value < |paid.world.books.accounts| {
        DecideKeepsTerms(paid.world, w.campaign.escrow.value, terms.reachPerPost);
      }
    }
  }

  lemma WorkKeepsTerms(w: World, action: Action)
    requires OnAir(w.campaign) && IsWork(action)
    ensures KeptOnAir(w.campaign, Step(w, action).campaign)
  {
    StepIsHandler(w, action);
    match action
    case DoSendOffers(promoters, terms) => OfferEachKeepsHeader(w.campaign, promoters, terms);
    case DoSweep(now) => SweepKeepsHeader(w.campaign, |w.campaign.assignments|, now);
    case _ =>
  }

  lemma OnAirKeepsTerms(w: World, action: Action)
    requires RowsOk(w.campaign) && OnAir(w.campaign)
    ensures SameTerms(w.campaign, Step(w, action).campaign)
  {
    OnAirStep(w, action);
    if IsWork(action) {
      WorkKeepsTerms(w, action);
    } else if action.DoApprove? {
      StepIsHandler(w, action);
      ApprovalKeepsTerms(w, action.submission, action.verified, action.key, action.terms);
    } else {
      DeskStepsKeepLive(w, action);
    }
  }

  lemma QuietApproval(w: World, action: Action)
    requires RowsOk(w.campaign) && !OnAir(w.campaign) && action.DoApprove?
    ensures Step(w, action).campaign == w.campaign
  {
    StepIsHandler(w, action);
    PayShape(w, action.submission, action.verified, action.key, action.terms.settlement);
  }

  lemma BriefKeepsTerms(w: World, action: Action)
    requires IsBriefWork(action) && !TakesQuote(w, action) && !Step(w, action).campaign.status.Draft?
    ensures Step(w, action).campaign == w.campaign
  {
  }

  /** Short of a new quote, nothing leads out of a draft or changes what was quoted. */
  lemma StepKeepsTerms(w: World, action: Action)
    requires RowsOk(w.campaign) && !TakesQuote(w, action) && !Step(w, action).campaign.status.Draft?
    ensures SameTerms(w.campaign, Step(w, action).campaign)
  {
    if OnAir(w.campaign) {
      OnAirKeepsTerms(w, action);
    } else if IsBriefWork(action) {
      BriefKeepsTerms(w, action);
    } else if IsFunding(action) {
      FundingShape(w, action);
    } else if IsReview(action) {
      ReviewChangesStatus(w, action);
    } else if IsElsewhere(action) {
      ElsewhereStepRows(w, action);
    } else if action.DoApprove? {
      QuietApproval(w, action);
    } else {
      QuietWork(w, action);
    }
  }

  /** Action k of the run took a quote, nothing since has replaced or cost it, and the campaign stands on it. */
  ghost predicate QuoteStands(w: World, actions: seq<Action>, k: nat)
  {
    && k < |actions| && TakesQuote(RunWorld(w, actions[..k]), actions[k])
    && (forall j :: k < j < |actions| ==> !Requotes(RunWorld(w, actions[..j]), actions[j]))
    && CarriesQuote(RunWorld(w, actions).campaign, RunWorld(w, actions[..k]).campaign,
                    actions[k].exactPrice, actions[k].quoteTerms)
  }

  lemma QuoteStillStands(w: World, actions: seq<Action>, last: Action, k: nat)
    requires QuoteStands(w, actions, k) && RowsOk(RunWorld(w, actions).campaign)
    requires !TakesQuote(RunWorld(w, actions), last) && !Step(RunWorld(w, actions), last).campaign.status.Draft?
    ensures QuoteStands(w, actions + [last], k)
  {
    var all := actions + [last];
    StepKeepsTerms(RunWorld(w, actions), last);
    assert all[..|actions|] == actions && all[..k] == actions[..k] && all[k] == actions[k];
    forall j | k < j < |all| ensures !Requotes(RunWorld(w, all[..j]), all[j]) {
      if j < |actions| {
        assert all[..j] == actions[..j] && all[j] == actions[j];
      }
    }
  }

  lemma NewQuoteStands(w: World, actions: seq<Action>, last: Action)
    requires TakesQuote(RunWorld(w, actions), last)
    ensures QuoteStands(w, actions + [last], |actions|)
  {
    var all := actions + [last];
    assert all[..|actions|] == actions;
    TakenQuoteIsCarried(RunWorld(w, actions), last.exactPrice, last.quoteTerms);
  }

  /**
   * On every run, a campaign past its draft stands on the last quote taken: its posts, price, target and unit price
   * (and, until it is live, its slots) are what that very quote gave, and nothing has replaced or cost it since.
   */
  lemma {:induction false} PriceIsTheQuotedOne(w: World, actions: seq<Action>)
    requires FreshStart(w) && !RunWorld(w, actions).campaign.status.Draft?
    ensures exists k: nat :: QuoteStands(w, actions, k)
    decreases |actions|
  {
    FreshStartIsOk(w);
    if actions != [] {
      var front, last := actions[..|actions| - 1], actions[|actions| - 1];
      assert actions == front + [last];
      RunKeepsRows(w, front);
      if TakesQuote(RunWorld(w, front), last) {
        NewQuoteStands(w, front, last);
      } else {
        StepKeepsTerms(RunWorld(w, front), last);
        PriceIsTheQuotedOne(w, front);
        var k: nat :| QuoteStands(w, front, k);
        QuoteStillStands(w, front, last, k);
      }
    }
  }

  // ---- The offers and their posts ----

  /** The posts of an assignment carry what its offer promised. */
  predicate CarriesOffer(a: Assignment, offers: seq<Offer>)
  {
    a.offer < |offers| &&
    forall j :: 0 <= j < |a.posts| ==>
      && a.posts[j].gross == offers[a.offer].gross && a.posts[j].fee == offers[a.offer].fee
      && a.posts[j].promised == offers[a.offer].promised
  }

  predicate PostsCarryOffers(c: Campaign)
  {
    forall i :: 0 <= i < |c.assignments| ==> CarriesOffer(c.assignments[i], c.offers)
  }

  /** The economics of offers never change, and offers are never deleted. */
  predicate OffersOnlyGrow(c: Campaign, c': Campaign)
  {
    |c.offers| <= |c'.offers| && forall i :: 0 <= i < |c.offers| ==>
      c'.offers[i] == c.offers[i].(status := c'.offers[i].status)
  }

  /** Posts keep everything but their status. */
  predicate SamePosts(a: Assignment, a': Assignment)
  {
    a'.offer == a.offer && |a'.posts| == |a.posts|
    && forall j :: 0 <= j < |a.posts| ==> a'.posts[j] == a.posts[j].(status := a'.posts[j].status)
  }

  predicate OnlyStatuses(c: Campaign, c': Campaign)
  {
    |c'.assignments| == |c.assignments| && forall i :: 0 <= i < |c.assignments| ==>
      SamePosts(c.assignments[i], c'.assignments[i])
  }

  lemma StatusesKeepEconomics(c: Campaign, c': Campaign)
    requires PostsCarryOffers(c) && OffersOnlyGrow(c, c') && OnlyStatuses(c, c')
    ensures PostsCarryOffers(c')
  {
    forall i | 0 <= i < |c'.assignments| ensures CarriesOffer(c'.assignments[i], c'.offers) {
      assert CarriesOffer(c.assignments[i], c.offers) && SamePosts(c.assignments[i], c'.assignments[i]);
    }
  }

  /** The terms an offer was sent on: the unit price of the campaign, and the rates of that moment. */
  predicate SentOn(o: Offer, unit: nat, terms: OfferTerms)
  {
    && o.gross == unit && o.fee == Pricing.SplitFee(unit, terms.takeRate).fee
    && o.promised == terms.reachPerSlot && o.expiresAt == terms.expiresAt
  }

  lemma {:induction false} BatchSends(c: Campaign, promoters: seq<nat>, terms: OfferTerms)
    ensures var c' := OfferEach(c, promoters, terms).0;
            && c' == c.(offers := c'.offers) && c.offers <= c'.offers
            && forall i :: |c.offers| <= i < |c'.offers| ==> SentOn(c'.offers[i], UnitOf(c), terms)
    decreases |promoters|
  {
    if promoters != [] && promoters[0] in terms.qualified {
      if AlreadyOffered(c, promoters[0]) {
        BatchSends(c, promoters[1..], terms);
      } else {
        BatchSends(c.(offers := c.offers + [NewOffer(c, promoters[0], terms)]), promoters[1..], terms);
      }
    }
  }

  lemma AcceptKeepsEconomics(w: World, offer: nat, promoter: nat, clock: Clock)
    requires PostsCarryOffers(w.campaign)
    ensures var c' := Accept(w, offer, promoter, clock).0.campaign;
            PostsCarryOffers(c') && OffersOnlyGrow(w.campaign, c') && |c'.offers| == |w.campaign.offers|
  {
    var c, c' := w.campaign, Accept(w, offer, promoter, clock).0.campaign;
    if Accept(w, offer, promoter, clock).1.Success? {
      StatusesKeepEconomics(c, c.(offers := c'.offers));
      forall i | 0 <= i < |c'.assignments| ensures CarriesOffer(c'.assignments[i], c'.offers) {
        if i < |c.assignments| {
          assert CarriesOffer(c.assignments[i], c'.offers);
        }
      }
    }
  }

  lemma SweepOnlyStatuses(c: Campaign, now: int)
    ensures OnlyStatuses(c, SweepUpTo(c, |c.assignments|, now))
  {
    var n := |c.assignments|;
    forall x: Campaign, i: nat | i < n && |x.assignments| == n && OnlyStatuses(c, x)
      ensures OnlyStatuses(c, SweepOne(x, i, now))
    {
      SweepOneOnlyStatuses(x, i, now);
      forall k | 0 <= k < n ensures SamePosts(c.assignments[k], SweepOne(x, i, now).assignments[k]) {
        assert SamePosts(c.assignments[k], x.assignments[k])
               && SamePosts(x.assignments[k], SweepOne(x, i, now).assignments[k]);
      }
    }
    SweepInduction(c, n, now, (x: Campaign, i: nat) => OnlyStatuses(c, x));
  }

  lemma SweepOneOnlyStatuses(c: Campaign, i: nat, now: int)
    requires i < |c.assignments|
    ensures OnlyStatuses(c, SweepOne(c, i, now))
  {
  }

  lemma MarkOnlyStatuses(c: Campaign, s: nat, verified: nat)
    requires GoodSubmission(c, s)
    ensures MarkApproved(c, s, verified).offers == c.offers && OnlyStatuses(c, MarkApproved(c, s, verified))
  {
  }

  lemma DecideLeavesWork(w: World, e: nat, reachPerPost: nat)
    requires e < |w.books.accounts|
    ensures var c' := Decide(w, e, reachPerPost).0.campaign;
            c'.offers == w.campaign.offers && c'.assignments == w.campaign.assignments
  {
    RetainLeavesRows(w.(campaign := w.campaign.(status := Fulfilled)), e);
  }

  lemma ApprovalOnlyStatuses(w: World, s: nat, verified: int, key: Key, terms: ApprovalTerms)
    ensures var c' := ApproveSubmission(w, s, verified, key, terms).0.campaign;
            c'.offers == w.campaign.offers && OnlyStatuses(w.campaign, c')
  {
    var paid := PayForPost(w, s, verified, key, terms.settlement);
    PayShape(w, s, verified, key, terms.settlement);
    if paid.paidNow {
      MarkOnlyStatuses(w.campaign, s, verified);
      if w.campaign.status.Live? && w.campaign.escrow.Some? && w.campaign.escrow.value < |paid.world.books.accounts| {
        DecideLeavesWork(paid.world, w.campaign.escrow.value, terms.reachPerPost);
      }
    }
  }

  lemma ProofOnlyStatuses(w: World, action: Action)
    requires action.DoSubmit? || action.DoReject? || action.DoDecline? || action.DoExpire?
    ensures OffersOnlyGrow(w.campaign, Step(w, action).campaign) && OnlyStatuses(w.campaign, Step(w, action).campaign)
    ensures |Step(w, action).campaign.offers| == |w.campaign.offers|
  {
  }

  lemma DeskOnlyHeader(w: World, action: Action)
    requires IsDeskWork(action)
    ensures Step(w, action).campaign.offers == w.campaign.offers
            && Step(w, action).campaign.assignments == w.campaign.assignments
  {
  }

  /** One step: posts keep carrying their offers, and only sending adds offers, on the terms of that batch. */
  predicate OffersGrowBySending(w: World, action: Action, c': Campaign)
  {
    && OffersOnlyGrow(w.campaign, c')
    && forall i :: |w.campaign.offers| <= i < |c'.offers| ==>
         action.DoSendOffers? && SentOn(c'.offers[i], UnitOf(w.campaign), action.offerTerms)
  }

  lemma SendingStep(w: World, action: Action)
    requires PostsCarryOffers(w.campaign) && action.DoSendOffers?
    ensures PostsCarryOffers(Step(w, action).campaign) && OffersGrowBySending(w, action, Step(w, action).campaign)
  {
    StepIsHandler(w, action);
    BatchSends(w.campaign, action.promoters, action.offerTerms);
    StatusesKeepEconomics(w.campaign, Step(w, action).campaign);
  }

  lemma OtherStep(w: World, action: Action)
    requires PostsCarryOffers(w.campaign) && !action.DoSendOffers?
    ensures PostsCarryOffers(Step(w, action).campaign) && OffersGrowBySending(w, action, Step(w, action).campaign)
  {
    StepIsHandler(w, action);
    match action
    case DoAccept(offer, promoter, clock) => AcceptKeepsEconomics(w, offer, promoter, clock);
    case DoApprove(s, verified, key, terms) =>
      ApprovalOnlyStatuses(w, s, verified, key, terms);
      StatusesKeepEconomics(w.campaign, Step(w, action).campaign);
    case DoSweep(now) =>
      SweepOnlyStatuses(w.campaign, now);
      SweepKeepsHeader(w.campaign, |w.campaign.assignments|, now);
      StatusesKeepEconomics(w.campaign, Step(w, action).campaign);
    case _ =>
      if IsWork(action) {
        ProofOnlyStatuses(w, action);
        StatusesKeepEconomics(w.campaign, Step(w, action).campaign);
      } else {
        DeskOnlyHeader(w, action);
      }
  }

  lemma StepKeepsOffers(w: World, action: Action)
    requires PostsCarryOffers(w.campaign)
    ensures PostsCarryOffers(Step(w, action).campaign) && OffersGrowBySending(w, action, Step(w, action).campaign)
  {
    if action.DoSendOffers? {
      SendingStep(w, action);
    } else {
      OtherStep(w, action);
    }
  }

  lemma {:induction false} RunKeepsOffers(w: World, actions: seq<Action>)
    requires PostsCarryOffers(w.campaign)
    ensures PostsCarryOffers(RunWorld(w, actions).campaign)
    decreases |actions|
  {
    if actions != [] {
      RunKeepsOffers(w, actions[..|actions| - 1]);
      StepKeepsOffers(RunWorld(w, actions[..|actions| - 1]), actions[|actions| - 1]);
    }
  }

  /** Offer i was sent by action j of the run, and still stands on the terms of that batch. */
  ghost predicate SentAt(w: World, actions: seq<Action>, i: nat, j: nat)
  {
    && j < |actions| && actions[j].DoSendOffers? && i < |RunWorld(w, actions).campaign.offers|
    && |RunWorld(w, actions[..j]).campaign.offers| <= i < |RunWorld(w, actions[..j + 1]).campaign.offers|
    && SentOn(RunWorld(w, actions).campaign.offers[i], UnitOf(RunWorld(w, actions).campaign), actions[j].offerTerms)
  }

  lemma StillSent(w: World, actions: seq<Action>, last: Action, i: nat, j: nat)
    requires SentAt(w, actions, i, j) && RowsOk(RunWorld(w, actions).campaign)
    requires PostsCarryOffers(RunWorld(w, actions).campaign)
    ensures SentAt(w, actions + [last], i, j)
  {
    var all, mid := actions + [last], RunWorld(w, actions);
    assert all[..|actions|] == actions && all[..j] == actions[..j] && all[..j + 1] == actions[..j + 1]
           && all[j] == actions[j];
    StepKeepsOffers(mid, last);
    assert OnAir(mid.campaign) by {
      assert mid.campaign.offers != [];
    }
    OnAirStep(mid, last);
  }

  lemma NewlySent(w: World, actions: seq<Action>, last: Action, i: nat)
    requires RowsOk(RunWorld(w, actions).campaign) && PostsCarryOffers(RunWorld(w, actions).campaign)
    requires |RunWorld(w, actions).campaign.offers| <= i < |RunWorld(w, actions + [last]).campaign.offers|
    ensures SentAt(w, actions + [last], i, |actions|)
  {
    var all, mid := actions + [last], RunWorld(w, actions);
    assert all[..|actions|] == actions && all[..|actions| + 1] == all;
    StepKeepsOffers(mid, last);
    assert Step(mid, last).campaign.offers[i] == RunWorld(w, all).campaign.offers[i];
    BatchSends(mid.campaign, last.promoters, last.offerTerms);
    StepIsHandler(mid, last);
  }

  /** On every run, every offer was sent by one of the actions and stands on the terms of that moment. */
  lemma {:induction false} OfferHasItsBatch(w: World, actions: seq<Action>, i: nat)
    requires FreshStart(w) && i < |RunWorld(w, actions).campaign.offers|
    ensures exists j: nat :: SentAt(w, actions, i, j)
    decreases |actions|
  {
    assert actions != [];
    var front, last := actions[..|actions| - 1], actions[|actions| - 1];
    assert actions == front + [last];
    FreshStartIsOk(w);
    RunKeepsRows(w, front);
    RunKeepsOffers(w, front);
    if i < |RunWorld(w, front).campaign.offers| {
      OfferHasItsBatch(w, front, i);
      var j: nat :| SentAt(w, front, i, j);
      StillSent(w, front, last, i, j);
    } else {
      NewlySent(w, front, last, i);
    }
  }

  // ---- What an approval pays the promoter ----

  function PromoterOf(c: Campaign, s: nat): nat
    requires GoodSubmission(c, s)
  {
    c.assignments[c.submissions[s].assignment].promoter
  }

  lemma SettlementCredits(b: Books, s: nat, e: nat, promoter: nat, revenue: nat, settled: Pricing.Settlement, key: Key,
                          owner: nat)
    requires e < |b.accounts| && revenue < |b.accounts| && promoter == Withdrawals.AccountOf(b, owner) < |b.accounts|
    requires b.accounts[e].kind.CampaignEscrow? && b.accounts[revenue].kind.RaliaRevenue? && 0 <= settled.take
    ensures var p := SettlePosting(s, e, promoter, revenue, settled.fee, settled.take, key);
            Withdrawals.Available(Append(b, p), owner) == Withdrawals.Available(b, owner) + settled.fee
  {
    var p := SettlePosting(s, e, promoter, revenue, settled.fee, settled.take, key);
    SettleTotals(b.accounts, s, e, promoter, revenue, settled.fee, settled.take, key);
    LogSnoc(b.log, p, promoter);
  }

  lemma PostedSettlementCredits(w: World, s: nat, verified: nat, key: Key, promoter: nat, settled: Pricing.Settlement,
                                owner: nat)
    requires MoneyOk(w) && OnAir(w.campaign) && GoodSubmission(w.campaign, s) && 0 <= settled.take
    requires promoter == Withdrawals.AccountOf(w.books, owner) < |w.books.accounts|
    requires PostSettlement(w, s, verified, key, promoter, settled).paidNow
    ensures var w' := PostSettlement(w, s, verified, key, promoter, settled).world;
            Withdrawals.Available(w'.books, owner) == Withdrawals.Available(w.books, owner) + settled.fee
  {
    var e, revenue := w.campaign.escrow.value, Platform(w.books, RaliaRevenue).value;
    var p := SettlePosting(s, e, promoter, revenue, settled.fee, settled.take, key);
    OutcomeTellsChange(w.books, p);
    SettlementCredits(w.books, s, e, promoter, revenue, settled, key, owner);
  }

  /** A payment credits the promoter with the fee share, at the rate it is approved at, of what was delivered. */
  lemma PaymentCredits(w: World, s: nat, verified: int, key: Key, settlement: Pricing.SettlementConfig)
    requires MoneyOk(w) && RowsOk(w.campaign) && PayForPost(w, s, verified, key, settlement).paidNow
    ensures 0 <= verified && GoodSubmission(w.campaign, s) && 0 < JudgedPost(w.campaign, s).promised
    ensures var post, w' := JudgedPost(w.campaign, s), PayForPost(w, s, verified, key, settlement).world;
            Withdrawals.Available(w'.books, PromoterOf(w.campaign, s))
            == Withdrawals.Available(w.books, PromoterOf(w.campaign, s))
               + Pricing.SplitFee(Pricing.Delivered(post.gross, verified, post.promised), settlement.takeRate).fee
  {
    PayUnfolds(w, s, verified, key, settlement);
    var owner, post := PromoterOf(w.campaign, s), JudgedPost(w.campaign, s);
    var settled := Pricing.SettleDelivery(post.gross, verified, post.promised, settlement).value;
    var (b, a) := GetOrCreate(w.books, PromoterAvailable, owner);
    assert w.campaign.submissions != [];
    OpeningKeepsMoney(w, PromoterAvailable, owner);
    Withdrawals.OpeningKeepsFigures(w.books, PromoterAvailable, owner, owner);
    Withdrawals.OpenedIsFound(w.books, owner);
    Pricing.FeeWithinPrice(settled.delivered, settlement.takeRate);
    PostedSettlementCredits(w.(books := b), s, verified, key, a, settled, owner);
  }

  /** The decision that follows moves no promoter's money. */
  lemma DecideCreditsNobody(w: World, reachPerPost: nat, owner: nat)
    requires MoneyOk(w) && w.campaign.status.Live?
    ensures Withdrawals.Available(Decide(w, EscrowOf(w), reachPerPost).0.books, owner)
            == Withdrawals.Available(w.books, owner)
  {
    var e := EscrowOf(w);
    var remaining := Balance(w.books, e);
    if 0 < remaining {
      var revenue := Platform(w.books, RaliaRevenue).value;
      var p := RetainPosting(w.campaign.id, e, revenue, remaining);
      TransferTotals(e, revenue, remaining);
      OutcomeTellsChange(w.books, p);
      LogSnoc(w.books.log, p, Withdrawals.AccountOf(w.books, owner));
    }
  }

  lemma ApprovalCredits(w: World, s: nat, verified: int, key: Key, terms: ApprovalTerms)
    requires MoneyOk(w) && RowsOk(w.campaign) && key.ClientKey?
             && PayForPost(w, s, verified, key, terms.settlement).paidNow
    ensures 0 <= verified && GoodSubmission(w.campaign, s) && 0 < JudgedPost(w.campaign, s).promised
    ensures var post, w' := JudgedPost(w.campaign, s), ApproveSubmission(w, s, verified, key, terms).0;
            Withdrawals.Available(w'.books, PromoterOf(w.campaign, s))
            == Withdrawals.Available(w.books, PromoterOf(w.campaign, s))
               + Pricing.SplitFee(Pricing.Delivered(post.gross, verified, post.promised), terms.settlement.takeRate).fee
  {
    var paid := PayForPost(w, s, verified, key, terms.settlement);
    PaymentCredits(w, s, verified, key, terms.settlement);
    PayMovesDelivered(w, s, verified, key, terms.settlement);
    if w.campaign.status.Live? {
      MarkKeepsHeader(w.campaign, s, verified);
      DecideCreditsNobody(paid.world, terms.reachPerPost, PromoterOf(w.campaign, s));
    }
  }

  /** What approving submission s adds to the balance of the promoter who made it. */
  function Earnings(w: World, s: nat, verified: int, key: Key, terms: ApprovalTerms): int
    requires GoodSubmission(w.campaign, s)
  {
    Withdrawals.Available(Step(w, DoApprove(s, verified, key, terms)).books, PromoterOf(w.campaign, s))
    - Withdrawals.Available(w.books, PromoterOf(w.campaign, s))
  }

  lemma CreditIsFee(w: World, s: nat, verified: int, key: Key, terms: ApprovalTerms)
    requires MoneyOk(w) && RowsOk(w.campaign) && key.ClientKey?
             && PayForPost(w, s, verified, key, terms.settlement).paidNow
    ensures 0 <= verified && GoodSubmission(w.campaign, s) && 0 < JudgedPost(w.campaign, s).promised
    ensures var post := JudgedPost(w.campaign, s);
            Earnings(w, s, verified, key, terms)
            == Pricing.SplitFee(Pricing.Delivered(post.gross, verified, post.promised), terms.settlement.takeRate).fee
  {
    StepIsHandler(w, DoApprove(s, verified, key, terms));
    ApprovalCredits(w, s, verified, key, terms);
  }

  lemma WholePost(c: Campaign, s: nat, verified: nat)
    requires RowsOk(c) && GoodSubmission(c, s) && 0 < JudgedPost(c, s).promised <= verified
    ensures Pricing.Delivered(JudgedPost(c, s).gross, verified, JudgedPost(c, s).promised) == UnitOf(c)
  {
    assert AssignmentOk(c, c.assignments[c.submissions[s].assignment]);
    Pricing.DeliveredIsMonotone(JudgedPost(c, s).gross, verified, verified, JudgedPost(c, s).promised);
  }

  lemma WholePostPays(w: World, s: nat, verified: int, key: Key, terms: ApprovalTerms)
    requires MoneyOk(w) && RowsOk(w.campaign) && key.ClientKey?
             && PayForPost(w, s, verified, key, terms.settlement).paidNow
    requires GoodSubmission(w.campaign, s) && JudgedPost(w.campaign, s).promised <= verified
    ensures Earnings(w, s, verified, key, terms) == Pricing.SplitFee(UnitOf(w.campaign), terms.settlement.takeRate).fee
  {
    CreditIsFee(w, s, verified, key, terms);
    WholePost(w.campaign, s, verified);
  }

  /** The approval pays the offered fee exactly when the two rates split the unit price alike; equal rates do. */
  predicate PaysTheOffer(unit: nat, offered: nat, credit: int, offerRate: Pricing.Percent,
                         approvalRate: Pricing.Percent)
  {
    && (credit == offered <==> Pricing.SplitFee(unit, approvalRate).fee == Pricing.SplitFee(unit, offerRate).fee)
    && (credit < offered ==> offerRate < approvalRate) && (offered < credit ==> approvalRate < offerRate)
  }

  lemma RatesDecide(unit: nat, offered: nat, credit: int, offerRate: Pricing.Percent, approvalRate: Pricing.Percent)
    requires offered == Pricing.SplitFee(unit, offerRate).fee && credit == Pricing.SplitFee(unit, approvalRate).fee
    ensures PaysTheOffer(unit, offered, credit, offerRate, approvalRate)
  {
    if offerRate <= approvalRate {
      Pricing.FeeFallsWithTakeRate(unit, offerRate, approvalRate);
    } else {
      Pricing.FeeFallsWithTakeRate(unit, approvalRate, offerRate);
    }
  }

  /**
   * On every run, a paid post delivered in full credits its promoter with the unit price split at the rate in force at
   * the approval. The fee it was offered was split at the rate in force when the offer was sent, so the promoter gets
   * exactly that fee if and only if the two splits agree, less only after a rise of the rate, more only after a cut.
   */
  lemma FullDeliveryPaysApprovalRate(w: World, actions: seq<Action>, s: nat, verified: int, key: Key,
                                     terms: ApprovalTerms)
    requires FreshStart(w) && key.ClientKey?
    requires var w1 := RunWorld(w, actions);
             && PayForPost(w1, s, verified, key, terms.settlement).paidNow
             && GoodSubmission(w1.campaign, s) && JudgedPost(w1.campaign, s).promised <= verified
    ensures var w1 := RunWorld(w, actions);
            var (c, a) := (w1.campaign, w1.campaign.assignments[w1.campaign.submissions[s].assignment]);
            && Earnings(w1, s, verified, key, terms) == Pricing.SplitFee(UnitOf(c), terms.settlement.takeRate).fee
            && CarriesOffer(a, c.offers)
            && exists j: nat :: SentAt(w, actions, a.offer, j)
                 && PaysTheOffer(UnitOf(c), c.offers[a.offer].fee, Earnings(w1, s, verified, key, terms),
                                 actions[j].offerTerms.takeRate, terms.settlement.takeRate)
  {
    FreshStartIsOk(w);
    RunKeepsMoney(w, actions);
    RunKeepsOffers(w, actions);
    var w1 := RunWorld(w, actions);
    var c, a := w1.campaign, w1.campaign.assignments[w1.campaign.submissions[s].assignment];
    assert CarriesOffer(a, c.offers);
    WholePostPays(w1, s, verified, key, terms);
    OfferHasItsBatch(w, actions, a.offer);
    var j: nat :| SentAt(w, actions, a.offer, j);
    RatesDecide(UnitOf(c), c.offers[a.offer].fee, Earnings(w1, s, verified, key, terms),
                actions[j].offerTerms.takeRate, terms.settlement.takeRate);
  }
}
