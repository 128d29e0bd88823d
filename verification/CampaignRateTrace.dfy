/** The take rate is read again at every approval: a run in which it moves between the offer and the approval. */
module CampaignRateTrace {
  import opened Common
  import opened Ledger
  import opened Delivery
  import opened Campaigns
  import opened CampaignMoney
  import opened CampaignTerms
  import opened CampaignTraces
  import Pricing

  /** Two promoters accept offers made at 30%, and the first hands in its proof. */
  function ProvenRun(): seq<Action>
  {
    Opening(200) + [DoAccept(0, 7, CLOCK), DoAccept(1, 8, CLOCK)] + [DoSubmit(0, 7, Some(0))]
  }

  lemma ProvenRunEnds()
    ensures At(RunWorld(Begin(2, false, 1, None), ProvenRun()), TwoAtWork(Submitted, Pending, [PROOF0], Live),
               {ClientKey("fund")}, 200)
  {
    var w := Begin(2, false, 1, None);
    var o2 := Opening(200) + [DoAccept(0, 7, CLOCK), DoAccept(1, 8, CLOCK)];
    StrandedAccepts();
    FirstSubmits(RunWorld(w, o2), {ClientKey("fund")});
    RunSnoc(w, o2, DoSubmit(0, 7, Some(0)));
  }

  lemma PaidInFull(w: World)
    requires At(w, TwoAtWork(Submitted, Pending, [PROOF0], Live), {ClientKey("fund")}, 200)
    ensures PayForPost(w, 0, 100, ClientKey("first"), APPROVAL.settlement).paidNow
    ensures GoodSubmission(w.campaign, 0) && JudgedPost(w.campaign, 0).promised == 100 && UnitOf(w.campaign) == 100
  {
    PayRuns(w, w.campaign, {ClientKey("fund")}, 200, 0, 100, ClientKey("first"), APPROVAL.settlement);
  }

  lemma HalfIsPaid(w: World)
    requires FreshStart(Begin(2, false, 1, None)) && w == RunWorld(Begin(2, false, 1, None), ProvenRun())
    requires PayForPost(w, 0, 100, ClientKey("first"), APPROVAL.settlement).paidNow
    requires GoodSubmission(w.campaign, 0) && JudgedPost(w.campaign, 0).promised == 100 && UnitOf(w.campaign) == 100
    ensures Earnings(w, 0, 100, ClientKey("first"), APPROVAL) == 50
  {
    FullDeliveryPaysApprovalRate(Begin(2, false, 1, None), ProvenRun(), 0, 100, ClientKey("first"), APPROVAL);
    assert Pricing.SplitFee(100, 50).fee == 50;
  }

  /** Offered 70 kobo at a take rate of 30%, the promoter delivers in full and is approved at 50%: it is paid 50. */
  lemma RateChangeChangesPay()
    ensures var w := RunWorld(Begin(2, false, 1, None), ProvenRun());
            && FreshStart(Begin(2, false, 1, None))
            && GoodSubmission(w.campaign, 0) && |w.campaign.offers| == 2
            && w.campaign.assignments[w.campaign.submissions[0].assignment].offer == 0
            && w.campaign.offers[0].fee == 70 && Earnings(w, 0, 100, ClientKey("first"), APPROVAL) == 50
  {
    BeginIsFresh(2, false, 1, None);
    ProvenRunEnds();
    PaidInFull(RunWorld(Begin(2, false, 1, None), ProvenRun()));
    HalfIsPaid(RunWorld(Begin(2, false, 1, None), ProvenRun()));
  }
}
