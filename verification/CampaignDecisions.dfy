/**
 * What a live campaign does once an approval has paid: it waits, it opens slots for the reach it still owes, or it is
 * over. Told from the rows and the balance, before and after.
 */
module CampaignDecisions {
  import opened Common
  import opened Ledger
  import opened Delivery
  import opened Campaigns
  import opened CampaignRows
  import opened CampaignMoney
  import opened CampaignSolvency
  import opened CampaignRuns
  import opened CampaignLimits
  import opened CampaignStatement
  import Pricing

  /** A slot is open, or a post waits to be handed in for the first time or to be judged. */
  predicate Busy(slots: seq<Slot>, assignments: seq<Assignment>)
  {
    || (exists k :: 0 <= k < |slots| && (slots[k].status == Open || slots[k].status == Offered))
    || (exists i :: 0 <= i < |assignments| && HasWork(assignments[i].posts))
  }

  predicate HasWork(posts: seq<DeliverySlot>)
  {
    exists p :: 0 <= p < |posts| && (posts[p].status == Pending || posts[p].status == Submitted)
  }

  lemma BusyIsInFlight(c: Campaign)
    ensures WorkInFlight(c) <==> Busy(c.slots, c.assignments)
  {
    forall i | 0 <= i < |c.assignments|
      ensures PostsInFlight(c.assignments[i].posts) <==> HasWork(c.assignments[i].posts)
    {
    }
    assert SlotsOpen(c.slots)
           <==> exists k :: 0 <= k < |c.slots| && (c.slots[k].status == Open || c.slots[k].status == Offered);
  }

  /** From c to c' n slots were added, open, priced and sized as the campaign's are, and nothing else of the rows. */
  predicate AddsSlots(c: Campaign, c': Campaign, n: nat)
  {
    && |c'.slots| == |c.slots| + n && c.slots <= c'.slots
    && (forall k :: |c.slots| <= k < |c'.slots| ==> c'.slots[k] == Slot(Open, UnitOf(c), c.posts))
    && c' == c.(slots := c'.slots, slotsTotal := c.slotsTotal + n, status := c'.status)
  }

  /**
   * n slots are right for a deficit of reach: they cost at most the balance, one fewer would not have closed the
   * deficit, and they close it unless the balance does not pay for one more.
   */
  predicate RightNumber(n: nat, deficit: int, balance: int, slotReach: nat, slotCost: nat)
  {
    && n * slotCost <= balance
    && (0 < n ==> (n - 1) * slotReach < deficit)
    && (deficit <= n * slotReach || balance < (n + 1) * slotCost)
  }

  predicate Met(c: Campaign, verified: int) { 0 < c.target && c.target <= verified }

  /**
   * With the reach met, or something going on, no slot is opened; otherwise the right number is, where the reach and
   * the cost of a slot are known.
   */
  predicate OpensRight(c: Campaign, n: nat, verified: int, balance: int, reachPerPost: nat)
  {
    if !Met(c, verified) && !Busy(c.slots, c.assignments)
       && 0 < c.target && 0 < reachPerPost * c.posts && 0 < UnitOf(c) * c.posts
    then RightNumber(n, c.target - verified, balance, reachPerPost * c.posts, UnitOf(c) * c.posts)
    else n == 0
  }

  /**
   * A campaign is over when its reach is met, or when nothing is going on and nothing was opened; what is left in
   * escrow is booked only when nothing is going on.
   */
  predicate EndsRight(c: Campaign, c': Campaign, n: nat, verified: int, balance: int, balance': int)
  {
    var busy := Busy(c.slots, c.assignments);
    && c'.status == (if Met(c, verified) || (!busy && n == 0) then Fulfilled else Live)
    && balance' == (if c'.status == Fulfilled && !busy then 0 else balance)
  }

  /** The decision of a live campaign with so much reach verified and so much in escrow. */
  predicate Decided(c: Campaign, c': Campaign, verified: int, balance: int, balance': int, reachPerPost: nat)
  {
    && |c.slots| <= |c'.slots| && AddsSlots(c, c', |c'.slots| - |c.slots|)
    && OpensRight(c, |c'.slots| - |c.slots|, verified, balance, reachPerPost)
    && EndsRight(c, c', |c'.slots| - |c.slots|, verified, balance, balance')
  }

  lemma RegroupCost(unit: nat, n: nat, posts: nat)
    ensures unit * (n * posts) == n * (unit * posts)
  {
  }

  lemma DecisionRows(w: World, reachPerPost: nat, w': World)
    requires MoneyOk(w) && RowsOk(w.campaign) && w.campaign.status == Live && EscrowOf(w) < |w.books.accounts|
    requires w' == Decide(w, EscrowOf(w), reachPerPost).0
    ensures var n := ReopenCount(w.campaign, Balance(w.books, EscrowOf(w)), reachPerPost);
            && AddsSlots(w.campaign, w'.campaign, n)
            && (0 < n ==> w'.campaign.status == Live && !WorkInFlight(w.campaign) && !ReachMet(w.campaign))
            && (n == 0 ==> w'.campaign.status == if ReachMet(w.campaign) || !WorkInFlight(w.campaign) then Fulfilled
                                                 else Live)
  {
    var n := ReopenCount(w.campaign, Balance(w.books, EscrowOf(w)), reachPerPost);
    if 0 < n {
      DecideReopens(w, EscrowOf(w), reachPerPost);
    } else {
      DecideFinishes(w, EscrowOf(w), reachPerPost);
    }
  }

  lemma CountIsRight(c: Campaign, balance: nat, reachPerPost: nat)
    ensures OpensRight(c, ReopenCount(c, balance, reachPerPost), TotalVerified(c), balance, reachPerPost)
  {
    BusyIsInFlight(c);
    ReopenIsBounded(c, balance, reachPerPost);
    RegroupCost(UnitOf(c), ReopenCount(c, balance, reachPerPost), c.posts);
  }

  lemma EndIsRight(w: World, reachPerPost: nat, w': World, n: nat)
    requires MoneyOk(w) && RowsOk(w.campaign) && w.campaign.status == Live && EscrowOf(w) < |w.books.accounts|
    requires w' == Decide(w, EscrowOf(w), reachPerPost).0
    requires n == ReopenCount(w.campaign, Balance(w.books, EscrowOf(w)), reachPerPost)
    ensures EscrowOf(w') == EscrowOf(w) < |w'.books.accounts| && AddsSlots(w.campaign, w'.campaign, n)
    ensures EndsRight(w.campaign, w'.campaign, n, TotalVerified(w.campaign), Balance(w.books, EscrowOf(w)),
                      Balance(w'.books, EscrowOf(w)))
  {
    BusyIsInFlight(w.campaign);
    DecideKeepsMoney(w, reachPerPost);
    DecisionRows(w, reachPerPost, w');
  }

  lemma DecisionInFull(w: World, reachPerPost: nat, w': World)
    requires MoneyOk(w) && RowsOk(w.campaign) && w.campaign.status == Live && EscrowOf(w) < |w.books.accounts|
    requires w' == Decide(w, EscrowOf(w), reachPerPost).0
    ensures EscrowOf(w') == EscrowOf(w) < |w'.books.accounts|
    ensures Decided(w.campaign, w'.campaign, TotalVerified(w.campaign), Balance(w.books, EscrowOf(w)),
                    Balance(w'.books, EscrowOf(w)), reachPerPost)
  {
    EscrowIsNonNegative(w);
    var n := ReopenCount(w.campaign, Balance(w.books, EscrowOf(w)), reachPerPost);
    EndIsRight(w, reachPerPost, w', n);
    CountIsRight(w.campaign, Balance(w.books, EscrowOf(w)), reachPerPost);
  }

  /** A campaign short of its reach that ends cannot pay for one more slot. */
  lemma OverMeansShort(c: Campaign, c': Campaign, verified: int, balance: int, balance': int, reachPerPost: nat)
    requires Decided(c, c', verified, balance, balance', reachPerPost) && c'.status == Fulfilled && verified < c.target
    requires 0 < reachPerPost * c.posts && 0 < UnitOf(c) * c.posts && 0 < c.target
    ensures balance < UnitOf(c) * c.posts
  {
    assert !Met(c, verified)
           && RightNumber(0, c.target - verified, balance, reachPerPost * c.posts, UnitOf(c) * c.posts);
  }

  // ---- The whole approval ----

  /** The share of the judged post that the verified reach earns. */
  function Share(w: World, s: nat, verified: int, settlement: Pricing.SettlementConfig): int
    requires GoodSubmission(w.campaign, s)
  {
    var post := JudgedPost(w.campaign, s);
    var r := Pricing.SettleDelivery(post.gross, verified, post.promised, settlement);
    if r.Ok? then r.value.delivered else 0
  }

  /** A proof still to be judged, verified to the threshold of what was promised, under a key not used before. */
  predicate Judgeable(w: World, s: nat, verified: int, key: Key, settlement: Pricing.SettlementConfig)
  {
    && GoodSubmission(w.campaign, s) && w.campaign.submissions[s].verdict == Undecided
    && key.ClientKey? && key.uuid != "" && !Has(w.books.log, key)
    && 0 <= verified && 0 < JudgedPost(w.campaign, s).promised
    && settlement.threshold * JudgedPost(w.campaign, s).promised <= 100 * verified
  }

  /** From c to c' submission s passed with that reach, its post is approved, and its assignment's status follows. */
  predicate Passes(c: Campaign, c': Campaign, s: nat, verified: int)
    requires GoodSubmission(c, s) && 0 <= verified
  {
    var (i, p) := (c.submissions[s].assignment, c.submissions[s].post);
    && |c'.assignments| == |c.assignments|
    && c'.assignments[i].posts == c.assignments[i].posts[p := c.assignments[i].posts[p].(status := Approved)]
    && c' == c.(submissions := c.submissions[s := c.submissions[s].(verdict := Passed, verified := verified)],
                assignments := c.assignments[i := c.assignments[i].(posts := c'.assignments[i].posts,
                                                                   status := RollupOf(c'.assignments[i].posts))])
  }

  lemma MarkedPasses(c: Campaign, s: nat, verified: nat)
    requires GoodSubmission(c, s)
    ensures Passes(c, MarkApproved(c, s, verified), s, verified)
  {
  }

  lemma PassingCounts(c: Campaign, s: nat, verified: nat)
    requires GoodSubmission(c, s) && c.submissions[s].verdict.Undecided?
    ensures TotalVerified(MarkApproved(c, s, verified)) == TotalVerified(c) + verified
  {
    SumUpdate(VerifiedReach, c.submissions, s, c.submissions[s].(verdict := Passed, verified := verified));
  }

  /** When an approval pays: escrow must hold the share, and the share must be something. */
  lemma PaysWhenCovered(w: World, s: nat, verified: int, key: Key, settlement: Pricing.SettlementConfig)
    requires MoneyOk(w) && RowsOk(w.campaign) && key.ClientKey?
    ensures var paid := PayForPost(w, s, verified, key, settlement);
            && (paid.paidNow <==> Judgeable(w, s, verified, key, settlement)
                                  && 0 < Share(w, s, verified, settlement) <= Balance(w.books, EscrowOf(w)))
            && (Judgeable(w, s, verified, key, settlement) ==> OnAir(w.campaign) && EscrowOf(w) < |w.books.accounts|)
            && (Judgeable(w, s, verified, key, settlement) && 0 < Share(w, s, verified, settlement) ==>
                  (paid.reply == LedgerRefused(InsufficientFunds)
                   <==> Balance(w.books, EscrowOf(w)) < Share(w, s, verified, settlement)))
  {
    PayUnfolds(w, s, verified, key, settlement);
    if MayPay(w, s, verified, key, settlement) {
      JudgedIsSettled(w, s, verified, key, settlement);
    } else if GoodSubmission(w.campaign, s) && w.campaign.submissions[s].verdict.Undecided? {
      assert w.campaign.submissions != [] && OnAir(w.campaign);
    }
  }

  lemma JudgedIsSettled(w: World, s: nat, verified: int, key: Key, settlement: Pricing.SettlementConfig)
    requires MoneyOk(w) && RowsOk(w.campaign) && key.ClientKey? && MayPay(w, s, verified, key, settlement)
    ensures var paid := PayForPost(w, s, verified, key, settlement);
            && OnAir(w.campaign) && EscrowOf(w) < |w.books.accounts|
            && (paid.paidNow <==> !Blank(key)
                                  && 0 < Share(w, s, verified, settlement) <= Balance(w.books, EscrowOf(w)))
            && (paid.reply == LedgerRefused(InsufficientFunds)
                <==> !Blank(key) && 0 < Share(w, s, verified, settlement)
                     && Balance(w.books, EscrowOf(w)) < Share(w, s, verified, settlement))
  {
    assert w.campaign.submissions != [];
    var post := JudgedPost(w.campaign, s);
    var promoter := w.campaign.assignments[w.campaign.submissions[s].assignment].promoter;
    PayUnfolds(w, s, verified, key, settlement);
    var settled := Pricing.SettleDelivery(post.gross, verified, post.promised, settlement).value;
    var (b, a) := GetOrCreate(w.books, PromoterAvailable, promoter);
    OpeningKeepsMoney(w, PromoterAvailable, promoter);
    Pricing.FeeWithinPrice(settled.delivered, settlement.takeRate);
    SettlementPosted(w.(books := b), s, verified, key, a, settled);
  }

  /** The rows as the approval leaves them before the decision: the slots and the status are still what they were. */
  function BeforeDeciding(c: Campaign, c': Campaign): Campaign
  {
    c'.(slots := c.slots, slotsTotal := c.slotsTotal, status := c.status)
  }

  /**
   * The share of the post has left escrow, the submission has passed, and a live campaign has decided what comes next
   * on what is left.
   */
  predicate PaidAndDecided(w: World, w': World, s: nat, verified: int, terms: ApprovalTerms)
    requires GoodSubmission(w.campaign, s) && 0 <= verified && EscrowOf(w) < |w.books.accounts|
  {
    var (c, e, c1) := (w.campaign, EscrowOf(w), BeforeDeciding(w.campaign, w'.campaign));
    var left := Balance(w.books, e) - Share(w, s, verified, terms.settlement);
    && EscrowOf(w') == e < |w'.books.accounts| && Passes(c, c1, s, verified)
    && (if c.status == Live
        then Decided(c1, w'.campaign, TotalVerified(c) + verified, left, Balance(w'.books, e), terms.reachPerPost)
        else w'.campaign == c1 && Balance(w'.books, e) == left)
  }

  /** The guards of an approval hold, and escrow holds the share. */
  predicate Payable(w: World, s: nat, verified: int, key: Key, settlement: Pricing.SettlementConfig)
  {
    && Judgeable(w, s, verified, key, settlement) && EscrowOf(w) < |w.books.accounts|
    && 0 < Share(w, s, verified, settlement) <= Balance(w.books, EscrowOf(w))
  }

  /** An approval in full: the campaign stays as it is, or the post is paid for and the campaign decides. */
  lemma ApprovalInFull(w: World, s: nat, verified: int, key: Key, terms: ApprovalTerms)
    requires MoneyOk(w) && RowsOk(w.campaign) && key.ClientKey?
    ensures var w' := Step(w, DoApprove(s, verified, key, terms));
            if Payable(w, s, verified, key, terms.settlement) then PaidAndDecided(w, w', s, verified, terms)
            else w'.campaign == w.campaign
  {
    var paid := PayForPost(w, s, verified, key, terms.settlement);
    PaysWhenCovered(w, s, verified, key, terms.settlement);
    StepIsHandler(w, DoApprove(s, verified, key, terms));
    if paid.paidNow {
      PaidInFull(w, s, verified, key, terms, paid, Step(w, DoApprove(s, verified, key, terms)));
    } else {
      UnpaidLeavesRows(w, s, verified, key, terms);
    }
  }

  lemma UnpaidLeavesRows(w: World, s: nat, verified: int, key: Key, terms: ApprovalTerms)
    requires !PayForPost(w, s, verified, key, terms.settlement).paidNow
    ensures ApproveSubmission(w, s, verified, key, terms).0.campaign == w.campaign
  {
    PayShape(w, s, verified, key, terms.settlement);
  }

  lemma PaidInFull(w: World, s: nat, verified: int, key: Key, terms: ApprovalTerms, paid: Payment, w': World)
    requires MoneyOk(w) && RowsOk(w.campaign) && key.ClientKey? && GoodSubmission(w.campaign, s)
    requires paid == PayForPost(w, s, verified, key, terms.settlement) && paid.paidNow && 0 <= verified
    requires EscrowOf(w) < |w.books.accounts| && w' == ApproveSubmission(w, s, verified, key, terms).0
    ensures PaidAndDecided(w, w', s, verified, terms)
  {
    PaidRows(w, s, verified, key, terms.settlement, paid);
    ApprovalSplits(w, s, verified, key, terms, paid);
    if w.campaign.status == Live {
      DecisionInFull(paid.world, terms.reachPerPost, w');
      DecisionFollows(w, paid.world, w', s, verified, terms);
    }
  }

  /** How the payment leaves things. */
  lemma PaidRows(w: World, s: nat, verified: int, key: Key, settlement: Pricing.SettlementConfig, paid: Payment)
    requires MoneyOk(w) && RowsOk(w.campaign) && key.ClientKey? && GoodSubmission(w.campaign, s)
    requires paid == PayForPost(w, s, verified, key, settlement) && paid.paidNow && 0 <= verified
    requires EscrowOf(w) < |w.books.accounts|
    ensures var mid := paid.world;
            && MoneyOk(mid) && RowsOk(mid.campaign) && EscrowOf(mid) == EscrowOf(w) < |mid.books.accounts|
            && Passes(w.campaign, mid.campaign, s, verified) && mid.campaign.status == w.campaign.status
            && TotalVerified(mid.campaign) == TotalVerified(w.campaign) + verified
            && Balance(mid.books, EscrowOf(w)) == Balance(w.books, EscrowOf(w)) - Share(w, s, verified, settlement)
  {
    PayMovesDelivered(w, s, verified, key, settlement);
    PayKeepsRows(w, s, verified, key, settlement);
    MarkKeepsHeader(w.campaign, s, verified);
    MarkedPasses(w.campaign, s, verified);
    PassingCounts(w.campaign, s, verified);
  }

  lemma DecisionFollows(w: World, mid: World, w': World, s: nat, verified: int, terms: ApprovalTerms)
    requires GoodSubmission(w.campaign, s) && 0 <= verified && EscrowOf(w) < |w.books.accounts|
    requires w.campaign.status == Live && Passes(w.campaign, mid.campaign, s, verified) && mid.campaign.status == Live
    requires EscrowOf(mid) == EscrowOf(w) < |mid.books.accounts|
    requires EscrowOf(w') == EscrowOf(mid) < |w'.books.accounts|
    requires TotalVerified(mid.campaign) == TotalVerified(w.campaign) + verified
    requires Balance(mid.books, EscrowOf(w)) == Balance(w.books, EscrowOf(w)) - Share(w, s, verified, terms.settlement)
    requires Decided(mid.campaign, w'.campaign, TotalVerified(mid.campaign), Balance(mid.books, EscrowOf(mid)),
                     Balance(w'.books, EscrowOf(mid)), terms.reachPerPost)
    ensures PaidAndDecided(w, w', s, verified, terms)
  {
    assert BeforeDeciding(w.campaign, w'.campaign) == mid.campaign;
  }

  /**
   * A campaign short of its reach, with nothing going on, is not over while escrow pays for one more slot: if an
   * approval ends it there, what was left would not have bought one.
   */
  lemma NotOverWhileAffordable(w: World, s: nat, verified: int, key: Key, terms: ApprovalTerms)
    requires MoneyOk(w) && RowsOk(w.campaign) && w.campaign.status == Live
    requires Payable(w, s, verified, key, terms.settlement)
    ensures var (c, w') := (w.campaign, Step(w, DoApprove(s, verified, key, terms)));
            var left := Balance(w.books, EscrowOf(w)) - Share(w, s, verified, terms.settlement);
            w'.campaign.status == Fulfilled && TotalVerified(c) + verified < c.target && 0 < c.target
            && 0 < terms.reachPerPost * c.posts && 0 < UnitOf(c) * c.posts ==>
              left < UnitOf(c) * c.posts
  {
    ApprovalInFull(w, s, verified, key, terms);
    var (c, w') := (w.campaign, Step(w, DoApprove(s, verified, key, terms)));
    if w'.campaign.status == Fulfilled && TotalVerified(c) + verified < c.target && 0 < c.target
      && 0 < terms.reachPerPost * c.posts && 0 < UnitOf(c) * c.posts {
      OverMeansShort(BeforeDeciding(c, w'.campaign), w'.campaign, TotalVerified(c) + verified,
                     Balance(w.books, EscrowOf(w)) - Share(w, s, verified, terms.settlement),
                     Balance(w'.books, EscrowOf(w)), terms.reachPerPost);
    }
  }

  // ---- The reach counted ----

  /** The step recorded the approval's key: the proof was paid for. */
  predicate Records(w: World, action: Action)
  {
    action.DoApprove? && Has(Step(w, action).books.log, action.key) && !Has(w.books.log, action.key)
  }

  /** The reach verified by the approvals of a run that were paid for. */
  function Certified(w: World, actions: seq<Action>): int
  {
    if actions == [] then 0
    else
      var front, last := actions[..|actions| - 1], actions[|actions| - 1];
      Certified(w, front) + (if Records(RunWorld(w, front), last) then last.verified else 0)
  }

  lemma SubmissionsKeepReach(w: World, action: Action)
    requires action.DoSubmit? || action.DoReject?
    ensures TotalVerified(Step(w, action).campaign) == TotalVerified(w.campaign)
  {
    StepIsHandler(w, action);
    var c := w.campaign;
    match action
    case DoSubmit(assignment, promoter, named) =>
      if Submit(w, assignment, promoter, named).1.Success? {
        var p := GetOr(named, FirstOutstanding(c.assignments[assignment].posts));
        SumSnoc(VerifiedReach, c.submissions, Submission(assignment, p, Undecided, 0));
      }
    case DoReject(s) =>
      if GoodSubmission(c, s) && c.submissions[s].verdict.Undecided? {
        SumUpdate(VerifiedReach, c.submissions, s, c.submissions[s].(verdict := Failed));
      }
  }

  lemma BriefKeepsSubmissions(w: World, action: Action)
    requires IsBriefWork(action)
    ensures Step(w, action).campaign.submissions == w.campaign.submissions
  {
  }

  lemma AcceptKeepsSubmissions(w: World, action: Action)
    requires action.DoAccept?
    ensures Step(w, action).campaign.submissions == w.campaign.submissions
  {
    StepIsHandler(w, action);
  }

  /** Only an approval counts reach. */
  lemma OthersKeepReach(w: World, action: Action)
    requires MoneyOk(w) && !action.DoApprove?
    ensures TotalVerified(Step(w, action).campaign) == TotalVerified(w.campaign)
  {
    if action.DoSubmit? || action.DoReject? {
      SubmissionsKeepReach(w, action);
    } else if action.DoSweep? {
      StepIsHandler(w, action);
      SweepKeepsHeader(w.campaign, |w.campaign.assignments|, action.now);
    } else if action.DoAccept? {
      AcceptKeepsSubmissions(w, action);
    } else if IsWork(action) {
      OnlyOffersChange(w, action);
    } else if IsBriefWork(action) {
      BriefKeepsSubmissions(w, action);
    } else if IsFunding(action) {
      FundingShape(w, action);
    } else if IsReview(action) {
      ReviewChangesStatus(w, action);
    } else {
      ElsewhereStepRows(w, action);
    }
  }

  lemma PaidIsRecorded(w: World, action: Action, paid: Payment)
    requires MoneyOk(w) && RowsOk(w.campaign) && action.DoApprove? && action.key.ClientKey?
    requires paid == PayForPost(w, action.submission, action.verified, action.key, action.terms.settlement)
    ensures Records(w, action) <==> paid.paidNow
  {
    PaymentAdds(w, action.submission, action.verified, action.key, action.terms.settlement);
    if paid.paidNow {
      assert paid.world.books.log[|w.books.log|].key == action.key;
      PaidStaysRecorded(w, action, paid);
    } else {
      UnpaidApprovalIs(w, action, paid);
    }
  }

  lemma PaidStaysRecorded(w: World, action: Action, paid: Payment)
    requires MoneyOk(w) && RowsOk(w.campaign) && action.DoApprove? && action.key.ClientKey? && paid.paidNow
    requires paid == PayForPost(w, action.submission, action.verified, action.key, action.terms.settlement)
    requires Has(paid.world.books.log, action.key)
    ensures Has(Step(w, action).books.log, action.key) && !Has(w.books.log, action.key)
  {
    PaymentAdds(w, action.submission, action.verified, action.key, action.terms.settlement);
    PaymentCosts(w, action.submission, action.verified, action.key, action.terms.settlement);
    ApprovalIs(w, action, paid);
    if w.campaign.status.Live? {
      DecisionAdds(paid.world, action.terms.reachPerPost, Step(w, action));
    }
    var i :| 0 <= i < |paid.world.books.log| && paid.world.books.log[i].key == action.key;
    assert Step(w, action).books.log[i].key == action.key;
  }

  lemma ApprovalCountsReach(w: World, action: Action)
    requires MoneyOk(w) && RowsOk(w.campaign) && action.DoApprove? && action.key.ClientKey?
    ensures TotalVerified(Step(w, action).campaign)
            == TotalVerified(w.campaign) + (if Records(w, action) then action.verified else 0)
  {
    var paid := PayForPost(w, action.submission, action.verified, action.key, action.terms.settlement);
    ApprovalInFull(w, action.submission, action.verified, action.key, action.terms);
    PaysWhenCovered(w, action.submission, action.verified, action.key, action.terms.settlement);
    PaidIsRecorded(w, action, paid);
    if paid.paidNow {
      var c1 := BeforeDeciding(w.campaign, Step(w, action).campaign);
      PassingCounts(w.campaign, action.submission, action.verified);
      assert c1.submissions == MarkApproved(w.campaign, action.submission, action.verified).submissions;
    }
  }

  /** On every run the reach a campaign counts is what its paid approvals verified, no more and no less. */
  lemma {:induction false} ReachIsCertified(w: World, actions: seq<Action>)
    requires FreshStart(w)
    ensures TotalVerified(RunWorld(w, actions).campaign) == Certified(w, actions)
    decreases |actions|
  {
    if actions != [] {
      var front, last := actions[..|actions| - 1], actions[|actions| - 1];
      FreshStartIsOk(w);
      RunKeepsMoney(w, front);
      ReachIsCertified(w, front);
      if last.DoApprove? && last.key.ClientKey? {
        ApprovalCountsReach(RunWorld(w, front), last);
      } else if last.DoApprove? {
        StepIsHandler(RunWorld(w, front), last);
      } else {
        OthersKeepReach(RunWorld(w, front), last);
      }
    }
  }
}
