/** Theorems over whole runs of a campaign: solvency, the bound on approvals, and the row invariants spelled out. */
module CampaignRuns {
  import opened Common
  import opened Ledger
  import opened Delivery
  import opened Campaigns
  import opened CampaignRows
  import opened CampaignMoney
  import opened CampaignSolvency
  import Pricing
  import Quotes

  /** The two hypotheses of solvency, at the steps where they matter. */
  predicate Clean(w: World, action: Action)
  {
    match action
    case DoSweep(now) => CleanSweep(w.campaign, now)
    case DoApprove(s, verified, key, terms) =>
      var paid := PayForPost(w, s, verified, key, terms.settlement);
      paid.paidNow && w.campaign.status.Live? && !WorkInFlight(paid.world.campaign) ==>
        NoneRejected(paid.world.campaign)
    case _ => true
  }

  predicate CleanRun(w: World, actions: seq<Action>)
  {
    forall k :: 0 <= k < |actions| ==> Clean(RunWorld(w, actions[..k]), actions[k])
  }

  // ---- Solvency ----

  lemma SameWorkStaysBacked(w: World, w': World)
    requires Backed(w) && PaidOut(w, w', 0) && UnitOf(w'.campaign) == UnitOf(w.campaign)
    requires Exposure(w'.campaign) <= Exposure(w.campaign) && (OnAir(w'.campaign) ==> OnAir(w.campaign))
    ensures Backed(w')
  {
    ScaledLess(UnitOf(w.campaign), Exposure(w'.campaign), Exposure(w.campaign));
  }

  /** Sending, declining and expiring change the offers and nothing else of the campaign. */
  lemma OnlyOffersChange(w: World, action: Action)
    requires action.DoSendOffers? || action.DoDecline? || action.DoExpire?
    ensures Step(w, action).campaign == w.campaign.(offers := Step(w, action).campaign.offers)
  {
    StepIsHandler(w, action);
    if action.DoSendOffers? {
      OfferEachKeepsHeader(w.campaign, action.promoters, action.offerTerms);
    }
  }

  lemma OffersLeaveExposure(c: Campaign, c': Campaign)
    requires c' == c.(offers := c'.offers)
    ensures Exposure(c') == Exposure(c) && UnitOf(c') == UnitOf(c)
  {
  }

  lemma ProofNeverRaisesExposure(w: World, action: Action)
    requires RowsOk(w.campaign) && Clean(w, action) && IsProofWork(action)
    ensures Exposure(Step(w, action).campaign) <= Exposure(w.campaign)
            && UnitOf(Step(w, action).campaign) == UnitOf(w.campaign)
  {
    StepIsHandler(w, action);
    match action
    case DoSubmit(assignment, promoter, named) => SubmitExposure(w, assignment, promoter, named);
    case DoReject(s) => RejectExposure(w, s);
    case DoSweep(now) => SweepExposure(w.campaign, |w.campaign.assignments|, now);
  }

  /** Offers, acceptances, proofs, rejections and clean sweeps never raise the exposure. */
  lemma WorkNeverRaisesExposure(w: World, action: Action)
    requires RowsOk(w.campaign) && Clean(w, action)
    requires IsWork(action)
    ensures Exposure(Step(w, action).campaign) <= Exposure(w.campaign)
            && UnitOf(Step(w, action).campaign) == UnitOf(w.campaign)
  {
    if IsProofWork(action) {
      ProofNeverRaisesExposure(w, action);
    } else if action.DoAccept? {
      StepIsHandler(w, action);
      AcceptExposure(w, action.offer, action.promoter, action.clock);
    } else {
      OnlyOffersChange(w, action);
      OffersLeaveExposure(w.campaign, Step(w, action).campaign);
    }
  }

  lemma RejectExposure(w: World, s: nat)
    requires RowsOk(w.campaign)
    ensures Exposure(RejectSubmission(w, s).0.campaign) == Exposure(w.campaign)
    ensures UnitOf(RejectSubmission(w, s).0.campaign) == UnitOf(w.campaign)
  {
    var c := w.campaign;
    if GoodSubmission(c, s) && c.submissions[s].verdict.Undecided? {
      JudgedExposure(c, s, Rejected, RejectSubmission(w, s).0.campaign.submissions);
    }
  }

  lemma WorkKeepsSolvent(w: World, action: Action)
    requires Solvent(w) && Clean(w, action)
    requires IsWork(action)
    ensures Backed(Step(w, action)) && QuoteFits(Step(w, action).campaign)
  {
    if OnAir(w.campaign) {
      WorkNeverRaisesExposure(w, action);
      WorkKeepsHeader(w, action);
      SameWorkStaysBacked(w, Step(w, action));
    } else {
      QuietWork(w, action);
    }
  }

  /** Before a campaign is live there is nothing to work on. */
  lemma QuietWork(w: World, action: Action)
    requires RowsOk(w.campaign) && !OnAir(w.campaign)
    requires IsWork(action)
    ensures Step(w, action).campaign == w.campaign
  {
    match action
    case DoExpire(now) => assert ExpireOffers(w, now).campaign.offers == w.campaign.offers;
    case _ =>
  }

  lemma SlotsFit(n: nat, posts: nat, unit: nat, price: nat)
    requires n * posts * unit <= price
    ensures unit * (n * posts) <= price && 0 * (n * posts) <= price
  {
    assert n * posts * unit == unit * (n * posts);
  }

  lemma QuoteShape(w: World, exactPrice: Option<int>, terms: Quotes.Terms)
    ensures var c, c' := w.campaign, TakeQuote(w, exactPrice, terms).0.campaign;
            var q := Quotes.QuoteFor(c.posts, Max(0, c.slotsTotal), exactPrice, terms);
            if Editable(c) && q.Ok? then
              c'.price == Some(q.value.price) && |c'.slots| == q.value.slots && c'.posts == c.posts
              && UnitOf(c') == if q.value.slots == 0 then 0 else q.value.unit
            else c' == c
  {
  }

  lemma QuoteStepFits(w: World, exactPrice: Option<int>, terms: Quotes.Terms)
    requires RowsOk(w.campaign) && QuoteFits(w.campaign)
    ensures QuoteFits(TakeQuote(w, exactPrice, terms).0.campaign)
  {
    var c := w.campaign;
    var q := Quotes.QuoteFor(c.posts, Max(0, c.slotsTotal), exactPrice, terms);
    QuoteShape(w, exactPrice, terms);
    if Editable(c) && q.Ok? {
      Quotes.QuoteNeverOverCommits(c.posts, Max(0, c.slotsTotal), exactPrice, terms);
      SlotsFit(q.value.slots, c.posts, q.value.unit, q.value.price);
    }
  }

  /** Going live: every priced slot is open, and escrow holds the whole price. */
  lemma ApprovalStartsBacked(w: World)
    requires Solvent(w) && w.campaign.status.UnderReview?
    ensures Backed(ApproveCampaign(w).0)
  {
    var c := w.campaign;
    forall k | 0 <= k < |c.slots| ensures OpenPosts(c.slots[k]) == c.posts {
      assert c.slots[k].status.Open?;
    }
    SumConstant(OpenPosts, c.slots, c.posts);
    assert Exposure(c) == |c.slots| * c.posts;
  }

  lemma FundingShape(w: World, action: Action)
    requires IsFunding(action)
    ensures var c, c' := w.campaign, Step(w, action).campaign;
            && c' == c.(status := c'.status, escrow := c'.escrow)
            && (c'.status == c.status || (c'.status.UnderReview? && Fundable(c)))
            && (OnAir(c) ==> Step(w, action) == w)
  {
  }

  lemma FundingKeepsFit(w: World, action: Action)
    requires Solvent(w) && IsFunding(action)
    ensures Backed(Step(w, action)) && QuoteFits(Step(w, action).campaign)
  {
    FundingShape(w, action);
  }

  lemma ReviewKeepsFit(w: World, action: Action)
    requires Solvent(w) && IsReview(action)
    ensures Backed(Step(w, action)) && QuoteFits(Step(w, action).campaign)
  {
    ReviewChangesStatus(w, action);
    if action.DoApproveCampaign? && w.campaign.status.UnderReview? {
      ApprovalStartsBacked(w);
      assert Step(w, action) == ApproveCampaign(w).0;
    }
  }

  lemma ApproveKeepsFit(w: World, action: Action)
    requires Solvent(w) && action.DoApprove? && Clean(w, action)
    ensures Backed(Step(w, action)) && QuoteFits(Step(w, action).campaign)
  {
    if action.key.ClientKey? {
      var paid := PayForPost(w, action.submission, action.verified, action.key, action.terms.settlement);
      PayMovesDelivered(w, action.submission, action.verified, action.key, action.terms.settlement);
      PayKeepsBacked(w, action.submission, action.verified, action.key, action.terms.settlement);
      PayKeepsRows(w, action.submission, action.verified, action.key, action.terms.settlement);
      if paid.paidNow {
        MarkedExposure(w.campaign, action.submission, action.verified);
        MarkKeepsHeader(w.campaign, action.submission, action.verified);
        if w.campaign.status.Live? {
          DecideKeepsBacked(paid.world, action.terms.reachPerPost);
          DecideStaysOnAir(paid.world, action.terms.reachPerPost);
        }
      }
    }
  }

  lemma DecideStaysOnAir(w: World, reachPerPost: nat)
    requires MoneyOk(w) && w.campaign.status.Live?
    ensures OnAir(Decide(w, EscrowOf(w), reachPerPost).0.campaign)
  {
    RetainLeavesRows(w.(campaign := w.campaign.(status := Fulfilled)), EscrowOf(w));
  }

  lemma BriefKeepsFit(w: World, action: Action)
    requires Solvent(w) && IsBriefWork(action)
    ensures Backed(Step(w, action)) && QuoteFits(Step(w, action).campaign)
  {
    if action.DoQuote? {
      QuoteStepFits(w, action.exactPrice, action.quoteTerms);
    } else {
      assert Step(w, action).campaign.slots == w.campaign.slots;
    }
  }

  lemma OpeningMovesNothing(w: World, action: Action)
    requires MoneyOk(w) && action.AccountElsewhere?
    ensures Step(w, action).campaign == w.campaign && PaidOut(w, Step(w, action), 0)
  {
    OpeningKeepsMoney(w, action.kind, action.owner);
  }

  lemma PostingMovesNothing(w: World, action: Action)
    requires MoneyOk(w) && action.Elsewhere?
    ensures Step(w, action).campaign == w.campaign && PaidOut(w, Step(w, action), 0)
  {
    if Foreign(w, action.posting) {
      ForeignKeepsMoney(w, action.posting);
    }
  }

  lemma ElsewhereMovesNothing(w: World, action: Action)
    requires MoneyOk(w) && IsElsewhere(action)
    ensures Step(w, action).campaign == w.campaign && PaidOut(w, Step(w, action), 0)
  {
    if action.AccountElsewhere? {
      OpeningMovesNothing(w, action);
    } else {
      PostingMovesNothing(w, action);
    }
  }

  lemma ElsewhereKeepsFit(w: World, action: Action)
    requires Solvent(w) && IsElsewhere(action)
    ensures Backed(Step(w, action)) && QuoteFits(Step(w, action).campaign)
  {
    ElsewhereMovesNothing(w, action);
    SameWorkStaysBacked(w, Step(w, action));
  }

  lemma StepKeepsFit(w: World, action: Action)
    requires Solvent(w) && Clean(w, action)
    ensures Backed(Step(w, action)) && QuoteFits(Step(w, action).campaign)
  {
    match action
    case DoUpdate(_) => BriefKeepsFit(w, action);
    case DoSetTargeting => BriefKeepsFit(w, action);
    case DoQuote(_, _) => BriefKeepsFit(w, action);
    case DoFund(_, _) => FundingKeepsFit(w, action);
    case DoCharge(_, _) => FundingKeepsFit(w, action);
    case DoApproveCampaign => ReviewKeepsFit(w, action);
    case DoRejectCampaign(_) => ReviewKeepsFit(w, action);
    case DoResubmit => ReviewKeepsFit(w, action);
    case DoApprove(_, _, _, _) => ApproveKeepsFit(w, action);
    case Elsewhere(_) => ElsewhereKeepsFit(w, action);
    case AccountElsewhere(_, _) => ElsewhereKeepsFit(w, action);
    case _ => WorkKeepsSolvent(w, action);
  }

  /** Every clean step keeps the campaign solvent. */
  lemma StepKeepsSolvent(w: World, action: Action)
    requires Solvent(w) && Clean(w, action)
    ensures Solvent(Step(w, action))
  {
    StepKeepsMoney(w, action);
    StepKeepsRows(w, action);
    StepKeepsFit(w, action);
  }

  lemma {:induction false} CleanRunIsSolvent(w: World, actions: seq<Action>)
    requires Solvent(w) && CleanRun(w, actions)
    ensures Solvent(RunWorld(w, actions))
    decreases |actions|
  {
    if actions != [] {
      var front, last := actions[..|actions| - 1], actions[|actions| - 1];
      forall k | 0 <= k < |front| ensures Clean(RunWorld(w, front[..k]), front[k]) {
        assert front[..k] == actions[..k] && front[k] == actions[k];
      }
      CleanRunIsSolvent(w, front);
      assert Clean(RunWorld(w, actions[..|front|]), actions[|front|]);
      StepKeepsSolvent(RunWorld(w, front), last);
    }
  }

  lemma NeverShort(w: World, s: nat, verified: int, key: Key, terms: ApprovalTerms)
    requires Solvent(w) && key.ClientKey? && !Blank(key)
    ensures ApproveSubmission(w, s, verified, key, terms).1 != LedgerRefused(InsufficientFunds)
  {
    var paid := PayForPost(w, s, verified, key, terms.settlement);
    if !Has(w.books.log, key) {
      ApprovalIsNeverShort(w, s, verified, key, terms.settlement);
      PayMovesDelivered(w, s, verified, key, terms.settlement);
      if paid.paidNow && w.campaign.status.Live? {
        MarkKeepsHeader(w.campaign, s, verified);
        DecideKeepsMoney(paid.world, terms.reachPerPost);
      }
    }
  }

  /**
   * Escrow solvency over every clean run: escrow covers the whole exposure, so no approval is refused for lack of
   * funds.
   */
  lemma EscrowIsSolvent(w: World, actions: seq<Action>, s: nat, verified: int, key: Key, terms: ApprovalTerms)
    requires FreshStart(w) && CleanRun(w, actions) && key.ClientKey? && !Blank(key)
    ensures Backed(RunWorld(w, actions))
    ensures ApproveSubmission(RunWorld(w, actions), s, verified, key, terms).1 != LedgerRefused(InsufficientFunds)
  {
    FreshStartIsOk(w);
    CleanRunIsSolvent(w, actions);
    NeverShort(RunWorld(w, actions), s, verified, key, terms);
  }

  // ---- Approvals are bounded ----

  function PassedOne(s: Submission): int { if s.verdict.Passed? then 1 else 0 }

  /** How many approvals the campaign has had. */
  function Approvals(c: Campaign): int { Sum(PassedOne, c.submissions) }

  /** The least an approval can pay at threshold t. */
  function LeastPay(unit: nat, t: Pricing.Percent): nat { Max(1, Pricing.DivRound(unit * t, 100)) }

  predicate PaidEnough(w: World, t: Pricing.Percent)
  {
    var c, e := w.campaign, EscrowOf(w);
    OnAir(c) ==> 0 <= Approvals(c) && Approvals(c) * LeastPay(UnitOf(c), t) <= Fees(w.books, e) + Takes(w.books, e)
  }

  /** No approval of the run was judged below the threshold t. */
  predicate JudgedAt(actions: seq<Action>, t: Pricing.Percent)
  {
    forall k :: 0 <= k < |actions| && actions[k].DoApprove? ==> t <= actions[k].terms.settlement.threshold
  }

  lemma OneMoreApproval(c: Campaign, s: nat, verified: nat)
    requires GoodSubmission(c, s) && c.submissions[s].verdict.Undecided?
    ensures Approvals(MarkApproved(c, s, verified)) == Approvals(c) + 1
  {
    SumUpdate(PassedOne, c.submissions, s, c.submissions[s].(verdict := Passed, verified := verified));
  }

  lemma LeastPayIsPaid(c: Campaign, s: nat, verified: nat, t: Pricing.Percent, settlement: Pricing.SettlementConfig)
    requires RowsOk(c) && GoodSubmission(c, s) && 0 < JudgedPost(c, s).promised && t <= settlement.threshold
    requires settlement.threshold * JudgedPost(c, s).promised <= verified * 100
    requires 0 < Pricing.Delivered(JudgedPost(c, s).gross, verified, JudgedPost(c, s).promised)
    ensures LeastPay(UnitOf(c), t) <= Pricing.Delivered(JudgedPost(c, s).gross, verified, JudgedPost(c, s).promised)
  {
    var post := JudgedPost(c, s);
    assert AssignmentOk(c, c.assignments[c.submissions[s].assignment]);
    assert post.gross == UnitOf(c);
    Pricing.ScaleBoth(t, settlement.threshold, post.promised);
    Pricing.ApprovedPaysThreshold(post.gross, verified, post.promised,
      Pricing.SettlementConfig(settlement.takeRate, t));
  }

  lemma OneMorePayment(approvals: int, least: int, payouts: int, delivered: int)
    requires approvals * least <= payouts && least <= delivered
    ensures (approvals + 1) * least <= payouts + delivered
  {
  }

  lemma MarkedKeepsPaid(w: World, w': World, s: nat, verified: nat, settlement: Pricing.SettlementConfig,
                        t: Pricing.Percent)
    requires RowsOk(w.campaign) && PaidEnough(w, t) && t <= settlement.threshold && EscrowOf(w) < |w.books.accounts|
    requires GoodSubmission(w.campaign, s) && w.campaign.submissions[s].verdict.Undecided?
             && 0 < JudgedPost(w.campaign, s).promised
    requires settlement.threshold * JudgedPost(w.campaign, s).promised <= verified * 100
    requires 0 < Pricing.Delivered(JudgedPost(w.campaign, s).gross, verified, JudgedPost(w.campaign, s).promised)
    requires PaidOut(w, w',
             Pricing.Delivered(JudgedPost(w.campaign, s).gross, verified, JudgedPost(w.campaign, s).promised))
    requires w'.campaign == MarkApproved(w.campaign, s, verified)
    ensures PaidEnough(w', t)
  {
    var c, e := w.campaign, EscrowOf(w);
    var post := JudgedPost(c, s);
    MarkedExposure(c, s, verified);
    OneMoreApproval(c, s, verified);
    LeastPayIsPaid(c, s, verified, t, settlement);
    OneMorePayment(Approvals(c), LeastPay(UnitOf(c), t), Fees(w.books, e) + Takes(w.books, e),
                   Pricing.Delivered(post.gross, verified, post.promised));
  }

  lemma PayKeepsPaid(w: World, s: nat, verified: int, key: Key, settlement: Pricing.SettlementConfig,
                     t: Pricing.Percent)
    requires MoneyOk(w) && RowsOk(w.campaign) && PaidEnough(w, t) && key.ClientKey? && t <= settlement.threshold
    ensures PaidEnough(PayForPost(w, s, verified, key, settlement).world, t)
  {
    var paid := PayForPost(w, s, verified, key, settlement);
    PayMovesDelivered(w, s, verified, key, settlement);
    if paid.paidNow {
      assert EscrowOf(w) < |w.books.accounts| by {
        SubmittedIsOnAir(w.campaign, s);
      }
      MarkedKeepsPaid(w, paid.world, s, verified, settlement, t);
    } else {
      UnpaidKeepsPaid(w, paid.world, t);
    }
  }

  lemma SubmittedIsOnAir(c: Campaign, s: nat)
    requires RowsOk(c) && s < |c.submissions|
    ensures OnAir(c)
  {
    assert c.submissions != [];
  }

  lemma UnpaidKeepsPaid(w: World, w': World, t: Pricing.Percent)
    requires MoneyOk(w) && PaidEnough(w, t) && PaidOut(w, w', 0) && w'.campaign == w.campaign
    ensures PaidEnough(w', t)
  {
  }

  lemma DecideKeepsPaid(w: World, reachPerPost: nat, t: Pricing.Percent)
    requires MoneyOk(w) && PaidEnough(w, t) && w.campaign.status.Live?
    ensures PaidEnough(Decide(w, EscrowOf(w), reachPerPost).0, t)
  {
    DecideKeepsMoney(w, reachPerPost);
    DecideKeepsApprovals(w, reachPerPost);
  }

  lemma ApproveKeepsPaid(w: World, action: Action, t: Pricing.Percent)
    requires MoneyOk(w) && RowsOk(w.campaign) && PaidEnough(w, t) && action.DoApprove?
             && t <= action.terms.settlement.threshold
    ensures PaidEnough(Step(w, action), t)
  {
    StepIsHandler(w, action);
    if action.key.ClientKey? {
      ApprovedKeepsPaid(w, action.submission, action.verified, action.key, action.terms, t);
    }
  }

  lemma ApprovedKeepsPaid(w: World, s: nat, verified: int, key: Key, terms: ApprovalTerms, t: Pricing.Percent)
    requires MoneyOk(w) && RowsOk(w.campaign) && PaidEnough(w, t) && key.ClientKey? && t <= terms.settlement.threshold
    ensures PaidEnough(ApproveSubmission(w, s, verified, key, terms).0, t)
  {
    var paid := PayForPost(w, s, verified, key, terms.settlement);
    PayMovesDelivered(w, s, verified, key, terms.settlement);
    PayKeepsPaid(w, s, verified, key, terms.settlement, t);
    if paid.paidNow && w.campaign.status.Live? {
      MarkKeepsHeader(w.campaign, s, verified);
      DecideKeepsPaid(paid.world, terms.reachPerPost, t);
    }
  }

  lemma DecideKeepsApprovals(w: World, reachPerPost: nat)
    requires MoneyOk(w) && w.campaign.status.Live?
    ensures var c' := Decide(w, EscrowOf(w), reachPerPost).0.campaign;
            c'.submissions == w.campaign.submissions && OnAir(c') && UnitOf(c') == UnitOf(w.campaign)
  {
    RetainLeavesRows(w.(campaign := w.campaign.(status := Fulfilled)), EscrowOf(w));
    var n := ReopenCount(w.campaign, Balance(w.books, EscrowOf(w)), reachPerPost);
    if 0 < n {
      assert w.campaign.slots != [] by {
        assert 0 < Quotes.Times(UnitOf(w.campaign), w.campaign.posts);
      }
    }
  }

  /** The steps before a campaign is live, and other people's, do nothing to one on air. */
  lemma DeskStepsKeepLive(w: World, action: Action)
    requires OnAir(w.campaign)
    requires IsDeskWork(action)
    ensures Step(w, action).campaign == w.campaign
  {
  }

  lemma ProofKeepsApprovals(w: World, action: Action)
    requires action.DoSubmit? || action.DoReject?
    ensures var c' := Step(w, action).campaign;
            c'.status == w.campaign.status && Approvals(c') == Approvals(w.campaign) && UnitOf(c') == UnitOf(w.campaign)
  {
    StepIsHandler(w, action);
    if action.DoSubmit? {
      SubmitKeepsApprovals(w, action.assignment, action.promoter, action.named);
    } else {
      RejectKeepsApprovals(w, action.submission);
    }
  }

  lemma SubmitKeepsApprovals(w: World, assignment: nat, promoter: nat, named: Option<nat>)
    ensures var c, c' := w.campaign, Submit(w, assignment, promoter, named).0.campaign;
            c'.status == c.status && c'.slots == c.slots && Approvals(c') == Approvals(c)
  {
    var c := w.campaign;
    if Submit(w, assignment, promoter, named).1.Success? {
      var p := GetOr(named, FirstOutstanding(c.assignments[assignment].posts));
      SumSnoc(PassedOne, c.submissions, Submission(assignment, p, Undecided, 0));
    }
  }

  lemma RejectKeepsApprovals(w: World, s: nat)
    ensures var c, c' := w.campaign, RejectSubmission(w, s).0.campaign;
            c'.status == c.status && c'.slots == c.slots && Approvals(c') == Approvals(c)
  {
    var c := w.campaign;
    if GoodSubmission(c, s) && c.submissions[s].verdict.Undecided? {
      SumUpdate(PassedOne, c.submissions, s, c.submissions[s].(verdict := Failed));
    }
  }

  lemma OffersKeepApprovals(w: World, action: Action)
    requires IsOfferWork(action)
    ensures var c' := Step(w, action).campaign;
            c'.status == w.campaign.status && Approvals(c') == Approvals(w.campaign) && UnitOf(c') == UnitOf(w.campaign)
  {
    StepIsHandler(w, action);
    if action.DoSendOffers? {
      OfferEachKeepsHeader(w.campaign, action.promoters, action.offerTerms);
    }
  }

  lemma SweepKeepsApprovals(w: World, action: Action)
    requires action.DoSweep?
    ensures var c' := Step(w, action).campaign;
            c'.status == w.campaign.status && Approvals(c') == Approvals(w.campaign) && UnitOf(c') == UnitOf(w.campaign)
  {
    StepIsHandler(w, action);
    SweepKeepsHeader(w.campaign, |w.campaign.assignments|, action.now);
    SweepKeepsUnit(w.campaign, |w.campaign.assignments|, action.now);
  }

  /** Steps that judge nothing leave the approvals where they are. */
  lemma OtherStepsKeepApprovals(w: World, action: Action)
    requires OnAir(w.campaign) && !action.DoApprove?
    ensures var c' := Step(w, action).campaign;
            OnAir(c') && Approvals(c') == Approvals(w.campaign) && UnitOf(c') == UnitOf(w.campaign)
  {
    match action
    case DoSubmit(_, _, _) => ProofKeepsApprovals(w, action);
    case DoReject(_) => ProofKeepsApprovals(w, action);
    case DoSweep(_) => SweepKeepsApprovals(w, action);
    case DoSendOffers(_, _) => OffersKeepApprovals(w, action);
    case DoAccept(_, _, _) => OffersKeepApprovals(w, action);
    case DoDecline(_, _) => OffersKeepApprovals(w, action);
    case DoExpire(_) => OffersKeepApprovals(w, action);
    case _ => DeskStepsKeepLive(w, action);
  }

  lemma SweepKeepsUnit(c: Campaign, n: nat, now: int)
    requires n <= |c.assignments|
    ensures UnitOf(SweepUpTo(c, n, now)) == UnitOf(c)
  {
    forall x: Campaign, i: nat | i < n && |x.assignments| == |c.assignments|
      ensures UnitOf(SweepOne(x, i, now)) == UnitOf(x)
    {
      SweepOneKeepsUnit(x, i, now);
    }
    SweepInduction(c, n, now, (x: Campaign, i: nat) => UnitOf(x) == UnitOf(c));
  }

  lemma OtherStepsKeepPayouts(w: World, action: Action)
    requires MoneyOk(w) && RowsOk(w.campaign) && OnAir(w.campaign) && !action.DoApprove?
    ensures PaidOut(w, Step(w, action), 0)
  {
    if IsElsewhere(action) {
      ElsewhereMovesNothing(w, action);
    } else {
      OnAirKeepsBooks(w, action);
    }
  }

  lemma OnAirKeepsBooks(w: World, action: Action)
    requires OnAir(w.campaign) && !action.DoApprove? && !action.Elsewhere? && !action.AccountElsewhere?
    ensures Step(w, action).books == w.books && Step(w, action).campaign.id == w.campaign.id
  {
    match action
    case DoSendOffers(promoters, terms) => OfferEachKeepsHeader(w.campaign, promoters, terms);
    case DoSweep(now) => SweepKeepsHeader(w.campaign, |w.campaign.assignments|, now);
    case _ =>
  }

  lemma StepKeepsPaid(w: World, action: Action, t: Pricing.Percent)
    requires MoneyOk(w) && RowsOk(w.campaign) && PaidEnough(w, t)
    requires action.DoApprove? ==> t <= action.terms.settlement.threshold
    ensures PaidEnough(Step(w, action), t)
  {
    var w' := Step(w, action);
    if action.DoApprove? {
      ApproveKeepsPaid(w, action, t);
    } else if OnAir(w.campaign) {
      OtherStepsKeepApprovals(w, action);
      OtherStepsKeepPayouts(w, action);
    } else if OnAir(w'.campaign) {
      NewlyOnAirHasNoApprovals(w, action);
      StepKeepsMoney(w, action);
      FeesAreNonNegative(w'.books, EscrowOf(w'));
    }
  }

  lemma NewlyOnAirHasNoApprovals(w: World, action: Action)
    requires RowsOk(w.campaign) && !OnAir(w.campaign) && OnAir(Step(w, action).campaign) && !action.DoApprove?
    ensures Approvals(Step(w, action).campaign) == 0
  {
    if !action.DoApproveCampaign? {
      if IsWork(action) {
        QuietWork(w, action);
      }
    }
  }

  lemma {:induction false} RunKeepsPaid(w: World, actions: seq<Action>, t: Pricing.Percent)
    requires MoneyOk(w) && RowsOk(w.campaign) && PaidEnough(w, t) && JudgedAt(actions, t)
    ensures PaidEnough(RunWorld(w, actions), t)
    decreases |actions|
  {
    if actions != [] {
      var front := actions[..|actions| - 1];
      assert forall k :: 0 <= k < |front| ==> front[k] == actions[k];
      RunKeepsPaid(w, front, t);
      RunKeepsMoney(w, front);
      StepKeepsPaid(RunWorld(w, front), actions[|actions| - 1], t);
    }
  }

  /** On every run, approvals x the least an approval pays never exceed the funded price. */
  lemma ApprovalsAreBounded(w: World, actions: seq<Action>, t: Pricing.Percent)
    requires FreshStart(w) && JudgedAt(actions, t)
    ensures var c := RunWorld(w, actions).campaign;
            OnAir(c) ==> c.price.Some? && Approvals(c) * LeastPay(UnitOf(c), t) <= c.price.value
  {
    FreshStartIsOk(w);
    RunKeepsPaid(w, actions, t);
    PriceIsConserved(w, actions);
  }

  /** Work on a campaign on air, short of an approval, leaves the number of slots alone. */
  lemma OnlyApprovalsAddSlots(w: World, action: Action)
    requires RowsOk(w.campaign) && OnAir(w.campaign) && !action.DoApprove?
    ensures |Step(w, action).campaign.slots| == |w.campaign.slots|
  {
    match action
    case DoSendOffers(promoters, terms) => OfferEachKeepsHeader(w.campaign, promoters, terms);
    case DoSweep(now) => SweepKeepsHeader(w.campaign, |w.campaign.assignments|, now);
    case _ =>
  }

  /** What filling some more slots will cost. */
  function SlotsCost(unit: nat, slots: int, posts: nat): int { unit * (slots * posts) }

  lemma DecideAddsSlots(w: World, reachPerPost: nat, w': World)
    requires MoneyOk(w) && RowsOk(w.campaign) && w.campaign.status.Live?
    requires w' == Decide(w, EscrowOf(w), reachPerPost).0
    ensures var added := |w'.campaign.slots| - |w.campaign.slots|;
            0 <= added && (0 < added ==> Balance(w'.books, EscrowOf(w)) == Balance(w.books, EscrowOf(w))
                                         && SlotsCost(UnitOf(w.campaign), added, w.campaign.posts)
                                            <= Balance(w.books, EscrowOf(w)))
  {
    var e := EscrowOf(w);
    ReopenIsBounded(w.campaign, Balance(w.books, e), reachPerPost);
    if 0 < ReopenCount(w.campaign, Balance(w.books, e), reachPerPost) {
      DecideReopens(w, e, reachPerPost);
    } else {
      RetainLeavesRows(w.(campaign := w.campaign.(status := Fulfilled)), e);
    }
  }

  /** Slots are added only after a fresh payment on a live campaign, by the decision that follows it. */
  lemma AddedByDecision(w: World, s: nat, verified: int, key: Key, terms: ApprovalTerms)
    requires |w.campaign.slots| < |ApproveSubmission(w, s, verified, key, terms).0.campaign.slots|
    ensures var paid := PayForPost(w, s, verified, key, terms.settlement);
            && paid.paidNow && w.campaign.status.Live? && w.campaign.escrow.Some?
            && w.campaign.escrow.value < |paid.world.books.accounts|
            && ApproveSubmission(w, s, verified, key, terms)
               == Decide(paid.world, w.campaign.escrow.value, terms.reachPerPost)
  {
    PayShape(w, s, verified, key, terms.settlement);
  }

  lemma PaymentCosts(w: World, s: nat, verified: int, key: Key, settlement: Pricing.SettlementConfig)
    requires MoneyOk(w) && RowsOk(w.campaign) && OnAir(w.campaign) && key.ClientKey?
    requires PayForPost(w, s, verified, key, settlement).paidNow
    ensures var w' := PayForPost(w, s, verified, key, settlement).world;
            && MoneyOk(w') && RowsOk(w'.campaign) && w'.campaign.status == w.campaign.status
            && EscrowOf(w') == EscrowOf(w)
            && Approvals(w'.campaign) == Approvals(w.campaign) + 1 && UnitOf(w'.campaign) == UnitOf(w.campaign)
            && w'.campaign.posts == w.campaign.posts && w'.campaign.slots == w.campaign.slots
            && EscrowOf(w) < |w.books.accounts| && EscrowOf(w) < |w'.books.accounts|
            && Balance(w'.books, EscrowOf(w)) < Balance(w.books, EscrowOf(w))
  {
    PayMovesDelivered(w, s, verified, key, settlement);
    PayKeepsRows(w, s, verified, key, settlement);
    OneMoreApproval(w.campaign, s, verified);
  }

  /**
   * From w to w' slots were added: one more approval was paid, which lowered escrow, and what is left covers the new
   * slots.
   */
  predicate PaidReopening(w: World, w': World)
  {
    var (e, added) := (EscrowOf(w), |w'.campaign.slots| - |w.campaign.slots|);
    && Approvals(w'.campaign) == Approvals(w.campaign) + 1
    && e < |w.books.accounts| && e < |w'.books.accounts| && Balance(w'.books, e) < Balance(w.books, e)
    && SlotsCost(UnitOf(w.campaign), added, w.campaign.posts) <= Balance(w'.books, e)
  }

  lemma DecisionReopens(mid: World, reachPerPost: nat, w': World)
    requires MoneyOk(mid) && RowsOk(mid.campaign) && mid.campaign.status.Live?
    requires w' == Decide(mid, EscrowOf(mid), reachPerPost).0 && |mid.campaign.slots| < |w'.campaign.slots|
    ensures EscrowOf(mid) < |mid.books.accounts| && EscrowOf(mid) < |w'.books.accounts|
    ensures Balance(w'.books, EscrowOf(mid)) == Balance(mid.books, EscrowOf(mid))
            && w'.campaign.submissions == mid.campaign.submissions
    ensures SlotsCost(UnitOf(mid.campaign), |w'.campaign.slots| - |mid.campaign.slots|, mid.campaign.posts)
            <= Balance(mid.books, EscrowOf(mid))
  {
    DecideAddsSlots(mid, reachPerPost, w');
    DecideKeepsAccount(mid, reachPerPost);
    DecideKeepsApprovals(mid, reachPerPost);
  }

  lemma DecideKeepsAccount(w: World, reachPerPost: nat)
    requires MoneyOk(w) && RowsOk(w.campaign) && w.campaign.status.Live?
    ensures EscrowOf(w) < |w.books.accounts| && EscrowOf(w) < |Decide(w, EscrowOf(w), reachPerPost).0.books.accounts|
  {
    DecideKeepsMoney(w, reachPerPost);
  }

  lemma DecisionAfterPayment(w: World, mid: World, w': World)
    requires EscrowOf(w) < |w.books.accounts| && EscrowOf(w) < |mid.books.accounts| && EscrowOf(w) < |w'.books.accounts|
    requires Approvals(mid.campaign) == Approvals(w.campaign) + 1 && UnitOf(mid.campaign) == UnitOf(w.campaign)
    requires mid.campaign.posts == w.campaign.posts && mid.campaign.slots == w.campaign.slots
    requires Balance(mid.books, EscrowOf(w)) < Balance(w.books, EscrowOf(w))
             && Balance(w'.books, EscrowOf(w)) == Balance(mid.books, EscrowOf(w))
    requires w'.campaign.submissions == mid.campaign.submissions
    requires SlotsCost(UnitOf(mid.campaign), |w'.campaign.slots| - |mid.campaign.slots|, mid.campaign.posts)
             <= Balance(mid.books, EscrowOf(w))
    ensures PaidReopening(w, w')
  {
  }

  lemma ApprovalReopens(w: World, s: nat, verified: int, key: Key, terms: ApprovalTerms, w': World)
    requires MoneyOk(w) && RowsOk(w.campaign) && OnAir(w.campaign) && key.ClientKey?
    requires w' == ApproveSubmission(w, s, verified, key, terms).0 && |w.campaign.slots| < |w'.campaign.slots|
    ensures PaidReopening(w, w')
  {
    AddedByDecision(w, s, verified, key, terms);
    PaymentCosts(w, s, verified, key, terms.settlement);
    var mid := PayForPost(w, s, verified, key, terms.settlement).world;
    DecisionReopens(mid, terms.reachPerPost, w');
    DecisionAfterPayment(w, mid, w');
  }

  /** A reopening is always paid for, by an approval. */
  lemma ReopeningCostsAnApproval(w: World, action: Action)
    requires MoneyOk(w) && RowsOk(w.campaign) && OnAir(w.campaign)
             && |w.campaign.slots| < |Step(w, action).campaign.slots|
    ensures action.DoApprove? && PaidReopening(w, Step(w, action))
  {
    if action.DoApprove? {
      StepIsHandler(w, action);
      ApprovalReopens(w, action.submission, action.verified, action.key, action.terms, Step(w, action));
    } else {
      OnlyApprovalsAddSlots(w, action);
    }
  }

  lemma ApprovalsNeverFall(w: World, action: Action)
    requires MoneyOk(w) && RowsOk(w.campaign) && OnAir(w.campaign)
    ensures OnAir(Step(w, action).campaign) && Approvals(w.campaign) <= Approvals(Step(w, action).campaign)
  {
    if action.DoApprove? {
      StepIsHandler(w, action);
      if action.key.ClientKey? {
        ApprovalCounts(w, action.submission, action.verified, action.key, action.terms);
      }
    } else {
      OtherStepsKeepApprovals(w, action);
    }
  }

  lemma ApprovalCounts(w: World, s: nat, verified: int, key: Key, terms: ApprovalTerms)
    requires MoneyOk(w) && RowsOk(w.campaign) && OnAir(w.campaign) && key.ClientKey?
    ensures var c' := ApproveSubmission(w, s, verified, key, terms).0.campaign;
            OnAir(c') && Approvals(w.campaign) <= Approvals(c')
  {
    var paid := PayForPost(w, s, verified, key, terms.settlement);
    PayShape(w, s, verified, key, terms.settlement);
    if paid.paidNow {
      PaymentCosts(w, s, verified, key, terms.settlement);
      if w.campaign.status.Live? {
        DecideKeepsApprovals(paid.world, terms.reachPerPost);
      }
    }
  }

  /** How many steps of a run reopened the campaign. */
  function Reopenings(w: World, actions: seq<Action>): nat
  {
    if actions == [] then 0
    else
      var mid := RunWorld(w, actions[..|actions| - 1]);
      var next := Step(mid, actions[|actions| - 1]);
      Reopenings(w, actions[..|actions| - 1])
      + (if OnAir(mid.campaign) && |mid.campaign.slots| < |next.campaign.slots| then 1 else 0)
  }

  lemma ApprovalsAreNonNegative(c: Campaign)
    ensures 0 <= Approvals(c)
  {
    SumNonNegative(PassedOne, c.submissions);
  }

  lemma {:induction false} EachReopeningHasItsApproval(w: World, actions: seq<Action>)
    requires FreshStart(w)
    ensures var c := RunWorld(w, actions).campaign;
            Reopenings(w, actions) <= if OnAir(c) then Approvals(c) else 0
    decreases |actions|
  {
    if actions == [] {
      ApprovalsAreNonNegative(w.campaign);
    } else {
      var front, last := actions[..|actions| - 1], actions[|actions| - 1];
      var mid := RunWorld(w, front);
      EachReopeningHasItsApproval(w, front);
      FreshStartIsOk(w);
      RunKeepsMoney(w, front);
      if OnAir(mid.campaign) {
        ApprovalsNeverFall(mid, last);
        if |mid.campaign.slots| < |Step(mid, last).campaign.slots| {
          ReopeningCostsAnApproval(mid, last);
        }
      } else {
        ApprovalsAreNonNegative(Step(mid, last).campaign);
      }
    }
  }

  lemma FewerCost(n: int, m: int, least: nat, price: int)
    requires n <= m && m * least <= price
    ensures n * least <= price
  {
    ScaledLess(least, n, m);
  }

  /** Reopening ends: on every run, reopenings x the least an approval pays never exceed the funded price. */
  lemma ReopeningsAreBounded(w: World, actions: seq<Action>, t: Pricing.Percent)
    requires FreshStart(w) && JudgedAt(actions, t)
    ensures var c := RunWorld(w, actions).campaign;
            OnAir(c) ==> c.price.Some? && Reopenings(w, actions) * LeastPay(UnitOf(c), t) <= c.price.value
  {
    var c := RunWorld(w, actions).campaign;
    EachReopeningHasItsApproval(w, actions);
    ApprovalsAreBounded(w, actions, t);
    if OnAir(c) {
      FewerCost(Reopenings(w, actions), Approvals(c), LeastPay(UnitOf(c), t), c.price.value);
    }
  }

  // ---- What every step on air keeps ----

  /** Assignments are never deleted and never change their offer. */
  predicate Grows(c: Campaign, c': Campaign)
  {
    |c.assignments| <= |c'.assignments| && forall i :: 0 <= i < |c.assignments| ==>
      c'.assignments[i].offer == c.assignments[i].offer
  }

  lemma SweepGrows(c: Campaign, n: nat, now: int)
    requires n <= |c.assignments|
    ensures Grows(c, SweepUpTo(c, n, now))
  {
    forall x: Campaign, i: nat | i < n && |x.assignments| == |c.assignments| && Grows(c, x)
      ensures Grows(c, SweepOne(x, i, now))
    {
      assert SweepOne(x, i, now).assignments[i].offer == x.assignments[i].offer;
      SweepOneLeavesOthers(x, i, now);
    }
    SweepInduction(c, n, now, (x: Campaign, i: nat) => Grows(c, x));
  }

  lemma ApprovalGrows(w: World, s: nat, verified: int, key: Key, terms: ApprovalTerms)
    requires OnAir(w.campaign)
    ensures var c' := ApproveSubmission(w, s, verified, key, terms).0.campaign;
            Grows(w.campaign, c') && OnAir(c') && UnitOf(c') == UnitOf(w.campaign)
  {
    var paid := PayForPost(w, s, verified, key, terms.settlement);
    PayShape(w, s, verified, key, terms.settlement);
    assert Grows(w.campaign, paid.world.campaign);
    if paid.paidNow && w.campaign.status.Live? && w.campaign.escrow.Some?
      && w.campaign.escrow.value < |paid.world.books.accounts| {
      DecideGrows(paid.world, w.campaign.escrow.value, terms.reachPerPost);
    }
  }

  lemma DecideGrows(w: World, e: nat, reachPerPost: nat)
    requires OnAir(w.campaign) && e < |w.books.accounts|
    ensures var c' := Decide(w, e, reachPerPost).0.campaign;
            c'.assignments == w.campaign.assignments && OnAir(c') && UnitOf(c') == UnitOf(w.campaign)
  {
    RetainLeavesRows(w.(campaign := w.campaign.(status := Fulfilled)), e);
    if 0 < ReopenCount(w.campaign, Balance(w.books, e), reachPerPost) {
      assert w.campaign.slots != [] by {
        assert 0 < Quotes.Times(UnitOf(w.campaign), w.campaign.posts);
      }
    }
  }

  lemma WorkGrows(w: World, action: Action)
    requires IsWork(action)
    ensures Grows(w.campaign, Step(w, action).campaign)
  {
    StepIsHandler(w, action);
    if action.DoSweep? {
      SweepGrows(w.campaign, |w.campaign.assignments|, action.now);
    } else if IsProofWork(action) {
      ProofGrows(w, action);
    } else if !action.DoAccept? {
      OnlyOffersChange(w, action);
    }
  }

  lemma ProofGrows(w: World, action: Action)
    requires action.DoSubmit? || action.DoReject?
    ensures Grows(w.campaign, Step(w, action).campaign)
  {
  }

  lemma OnAirStep(w: World, action: Action)
    requires RowsOk(w.campaign) && OnAir(w.campaign)
    ensures var c' := Step(w, action).campaign;
            Grows(w.campaign, c') && OnAir(c') && UnitOf(c') == UnitOf(w.campaign)
  {
    if IsWork(action) {
      WorkStep(w, action);
    } else if action.DoApprove? {
      StepIsHandler(w, action);
      ApprovalGrows(w, action.submission, action.verified, action.key, action.terms);
    } else {
      DeskStepsKeepLive(w, action);
    }
  }

  lemma WorkStep(w: World, action: Action)
    requires RowsOk(w.campaign) && OnAir(w.campaign)
    requires IsWork(action)
    ensures var c' := Step(w, action).campaign;
            Grows(w.campaign, c') && OnAir(c') && UnitOf(c') == UnitOf(w.campaign)
  {
    OtherStepsKeepApprovals(w, action);
    WorkGrows(w, action);
  }

  // ---- The rows on every run ----

  /** Never oversold, and the stored statuses are right, on every run of any length from a fresh campaign. */
  lemma RowsOnEveryRun(w: World, actions: seq<Action>)
    requires FreshStart(w)
    ensures var c := RunWorld(w, actions).campaign;
            && c.slotsFilled == Sum(FilledOne, c.slots) == Sum(HoldingOne, c.assignments)
            && (!c.status.Draft? ==> |c.slots| == c.slotsTotal)
            && (forall i, j :: 0 <= i < j < |c.assignments| ==>
                  c.assignments[i].offer != c.assignments[j].offer
                  && (c.assignments[i].slot.Some? ==> c.assignments[i].slot != c.assignments[j].slot))
            && (forall i :: 0 <= i < |c.assignments| && c.assignments[i].slot.Some? ==>
                  c.assignments[i].status == RollupOf(c.assignments[i].posts) && !c.assignments[i].status.Cancelled?
                  && c.assignments[i].slot.value < |c.slots| && c.slots[c.assignments[i].slot.value].status.Filled?)
  {
    FreshStartIsOk(w);
    RunKeepsRows(w, actions);
    var c := RunWorld(w, actions).campaign;
    forall i | 0 <= i < |c.assignments| ensures AssignmentOk(c, c.assignments[i]) {}
  }
}
