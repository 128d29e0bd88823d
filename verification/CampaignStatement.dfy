/**
 * The campaign's statement of account: what makes money arrive in its escrow account, and which action of a run stands
 * behind every transaction on it.
 */
module CampaignStatement {
  import opened Common
  import opened Ledger
  import opened Campaigns
  import opened CampaignRows
  import opened CampaignMoney
  import opened CampaignRuns
  import Pricing

  // ---- Funding, exactly ----

  /** The step left a transaction in the books or touched the campaign. */
  predicate Changes(w: World, w': World) { w'.books.log != w.books.log || w'.campaign != w.campaign }

  /** Quoted at a price worth paying, and not paid. */
  predicate AwaitsMoney(c: Campaign)
  {
    (c.status == Quoted || c.status == ConfirmingPayment) && c.price.Some? && 0 < c.price.value
  }

  /** The price went from the bank account to this campaign's escrow account under the key, and review may begin. */
  predicate FundedFrom(w: World, w': World, key: Key)
  {
    var c := w.campaign;
    && c.price.Some? && Platform(w'.books, BankClearing).Some?
    && var (bank, e) := (Platform(w'.books, BankClearing).value, EscrowOf(w'));
       && e < |w'.books.accounts|
       && w'.campaign == c.(status := UnderReview, escrow := Some(e))
       && w'.books.log == w.books.log + [Posting(CampaignFunding, CampaignRef(c.id), key,
                                                 [Entry(bank, Debit, c.price.value), Entry(e, Credit, c.price.value)])]
  }

  /** Accounts are opened at most; the bank account is the one it was. */
  predicate OnlyOpens(w: World, w': World)
  {
    w.books.accounts <= w'.books.accounts && Platform(w'.books, BankClearing) == Platform(w.books, BankClearing)
  }

  lemma FundingInFull(w: World, price: nat, key: Key)
    requires MoneyOk(w) && Fundable(w.campaign) && w.campaign.price == Some(price) && !Has(w.books.log, key)
    requires key.ClientKey? || key.PaystackKey?
    ensures var w' := FundEscrow(w, price, key).0;
            && OnlyOpens(w, w')
            && (if 0 < price && !Blank(key) then FundedFrom(w, w', key) else !Changes(w, w'))
  {
    var c := w.campaign;
    var (b, e) := GetOrCreate(w.books, CampaignEscrow, c.id);
    OpeningKeepsMoney(w, CampaignEscrow, c.id);
    OpeningFindsEscrow(w);
    FindAfterAppend(w.books.accounts, Account(CampaignEscrow, Some(c.id)), BankClearing, None);
    var bank := Platform(b, BankClearing).value;
    FundKeepsMoney(w, price, key);
    OutcomeTellsChange(b, FundPosting(c.id, bank, e, price, key));
    if 0 < price && !Blank(key) {
      TransferGoesThrough(b, FundPosting(c.id, bank, e, price, key), bank, e, price);
    }
  }

  /**
   * A card payment funds a campaign exactly when it awaits money and the charge went through, in naira, for the price.
   */
  lemma ChargeFundsExactly(w: World, reference: string, charge: Charge)
    requires MoneyOk(w)
    ensures var w' := Step(w, DoCharge(reference, charge));
            && (Changes(w, w')
                <==> AwaitsMoney(w.campaign) && !Has(w.books.log, PaystackKey(reference))
                     && charge.succeeded && charge.inNaira && charge.amount == w.campaign.price.value)
            && (Changes(w, w') ==> FundedFrom(w, w', PaystackKey(reference))) && OnlyOpens(w, w')
  {
    var c := w.campaign;
    ChargeUnfolds(w, reference, charge);
    if c.price.Some? && Fundable(c) && !Has(w.books.log, PaystackKey(reference)) {
      FundingInFull(w, c.price.value, PaystackKey(reference));
    }
  }

  /** A bank transfer an administrator records funds it exactly when it is for the price, under a fresh key. */
  lemma TransferFundsExactly(w: World, amount: int, key: Key)
    requires MoneyOk(w)
    ensures var w' := Step(w, DoFund(amount, key));
            && (Changes(w, w')
                <==> AwaitsMoney(w.campaign) && key.ClientKey? && key.uuid != "" && !Has(w.books.log, key)
                     && amount == w.campaign.price.value)
            && (Changes(w, w') ==> FundedFrom(w, w', key)) && OnlyOpens(w, w')
  {
    var c := w.campaign;
    TransferUnfolds(w, amount, key);
    if c.price.Some? && Fundable(c) && !Has(w.books.log, key) && key.ClientKey? {
      FundingInFull(w, c.price.value, key);
    }
  }

  // ---- What stands behind a transaction ----

  /** The client paid: the amount of the price, by a transfer recorded or by a charge that succeeded. */
  predicate IsPaidFor(w: World, action: Action, p: Posting, e: nat)
  {
    && AwaitsMoney(w.campaign) && p.reference == CampaignRef(w.campaign.id)
    && Platform(w.books, BankClearing).Some?
    && p.entries == [Entry(Platform(w.books, BankClearing).value, Debit, w.campaign.price.value),
                     Entry(e, Credit, w.campaign.price.value)]
    && match action
       case DoFund(amount, key) => p.key == key && amount == w.campaign.price.value
       case DoCharge(reference, charge) =>
         && p.key == PaystackKey(reference) && charge.succeeded && charge.inNaira
         && charge.amount == w.campaign.price.value
       case _ => false
  }

  /** A proof was approved: the delivered share of the post leaves escrow, the fee to its promoter, the rest kept. */
  predicate IsPayout(w: World, action: Action, p: Posting, accounts: seq<Account>, e: nat)
  {
    && action.DoApprove? && p.key == action.key && p.reference == SubmissionRef(action.submission)
    && GoodSubmission(w.campaign, action.submission)
    && w.campaign.submissions[action.submission].verdict == Undecided
    && var c, s := w.campaign, w.campaign.submissions[action.submission];
       var post := c.assignments[s.assignment].posts[s.post];
       var r := Pricing.SettleDelivery(post.gross, action.verified, post.promised, action.terms.settlement);
       && r.Ok? && r.value.meetsThreshold && 0 < r.value.delivered
       && p.entries
          == [Entry(e, Debit, r.value.delivered)]
             + (if 0 < r.value.fee
                then [Entry(FindAccount(accounts, PromoterAvailable, Some(c.assignments[s.assignment].promoter)),
                            Credit, r.value.fee)]
                else [])
             + (if 0 < r.value.take
                then [Entry(FindAccount(accounts, RaliaRevenue, None), Credit, r.value.take)] else [])
  }

  /** The campaign was turned down for good: its price goes back to the client's wallet. */
  predicate IsRefund(w: World, action: Action, p: Posting, accounts: seq<Account>, e: nat)
  {
    && action == DoRejectCampaign(true) && w.campaign.status == UnderReview && w.campaign.price.Some?
    && p.reference == CampaignRef(w.campaign.id) && p.key == RefundKey(w.campaign.id)
    && p.entries == [Entry(e, Debit, w.campaign.price.value),
                     Entry(FindAccount(accounts, ClientWallet, Some(w.campaign.client)), Credit,
                           w.campaign.price.value)]
  }

  /** The campaign is over: what an approval left in escrow is booked. */
  predicate IsRemainder(w: World, w': World, action: Action, p: Posting, e: nat)
  {
    && action.DoApprove? && w.campaign.status == Live && w'.campaign.status == Fulfilled
    && p.reference == CampaignRef(w.campaign.id) && p.key == RetainKey(w.campaign.id)
    && |p.entries| == 2 && 0 < p.entries[0].amount
    && p.entries == [Entry(e, Debit, p.entries[0].amount),
                     Entry(FindAccount(w'.books.accounts, RaliaRevenue, None), Credit, p.entries[0].amount)]
  }

  /** The action, taken where the run stood at w and leading to w', is the reason for the transaction. */
  predicate Explains(w: World, action: Action, w': World, p: Posting, e: nat)
  {
    match p.kind
    case CampaignFunding => IsPaidFor(w, action, p, e)
    case SubmissionPayout => IsPayout(w, action, p, w'.books.accounts, e)
    case CampaignRefund => IsRefund(w, action, p, w'.books.accounts, e)
    case Adjustment => IsRemainder(w, w', action, p, e)
    case _ => false
  }

  /** The step added these transactions and accounts only, and explains those on the escrow account. */
  predicate AddsExplained(w: World, action: Action, w': World)
  {
    && w.books.accounts <= w'.books.accounts && w.books.log <= w'.books.log
    && forall t :: |w.books.log| <= t < |w'.books.log| && Touches(w'.books.log[t].entries, EscrowOf(w')) ==>
         Explains(w, action, w', w'.books.log[t], EscrowOf(w'))
  }

  // ---- Step by step ----

  lemma QuietStepAdds(w: World, action: Action)
    requires MoneyOk(w) && action != DoRejectCampaign(true)
    requires IsBriefWork(action) || IsWork(action) || IsReview(action)
    ensures Step(w, action).books == w.books
  {
    if IsBriefWork(action) {
      BriefLeavesMoney(w, action);
    } else if IsWork(action) {
      WorkKeepsHeader(w, action);
    }
  }

  lemma FundingStepAdds(w: World, action: Action)
    requires MoneyOk(w) && IsFunding(action)
    ensures AddsExplained(w, action, Step(w, action))
  {
    var w' := Step(w, action);
    var key := if action.DoFund? then action.key else PaystackKey(action.reference);
    match action {
      case DoFund(amount, key) => TransferFundsExactly(w, amount, key);
      case DoCharge(reference, charge) => ChargeFundsExactly(w, reference, charge);
    }
    if Changes(w, w') {
      FundedIsExplained(w, action, w', key);
    } else {
      NothingAdded(w, action, w');
    }
  }

  lemma NothingAdded(w: World, action: Action, w': World)
    requires OnlyOpens(w, w') && !Changes(w, w')
    ensures AddsExplained(w, action, w')
  {
  }

  lemma FundedIsExplained(w: World, action: Action, w': World, key: Key)
    requires OnlyOpens(w, w') && FundedFrom(w, w', key) && AwaitsMoney(w.campaign)
    requires match action
             case DoFund(amount, k) => k == key && amount == w.campaign.price.value
             case DoCharge(reference, charge) =>
               && key == PaystackKey(reference) && charge.succeeded && charge.inNaira
               && charge.amount == w.campaign.price.value
             case _ => false
    ensures AddsExplained(w, action, w')
  {
  }

  lemma ElsewhereStepAdds(w: World, action: Action)
    requires MoneyOk(w) && IsElsewhere(action)
    ensures AddsExplained(w, action, Step(w, action))
  {
    if action.AccountElsewhere? {
      OpeningKeepsMoney(w, action.kind, action.owner);
    } else if Foreign(w, action.posting) {
      OutcomeTellsChange(w.books, action.posting);
      if Ledger.Post(w.books, action.posting).0 != w.books {
        NotOnNewAccount(w, action.posting);
      }
    }
  }

  lemma NotOnNewAccount(w: World, p: Posting)
    requires Foreign(w, p) && Ledger.Post(w.books, p).0 != w.books
    ensures !Touches(p.entries, EscrowOf(w))
  {
    FindFinds(w.books.log, p.key);
  }

  /** A terminal rejection posts the refund to the client's wallet. */
  lemma RejectionUnfolds(w: World)
    requires MoneyOk(w) && w.campaign.status.UnderReview?
    ensures var c := w.campaign;
            var (b, wallet) := GetOrCreate(w.books, ClientWallet, c.client);
            Step(w, DoRejectCampaign(true)).books
            == Ledger.Post(b, RefundPosting(c.id, EscrowOf(w), wallet, c.price.value)).0
  {
  }

  lemma RefundStepAdds(w: World)
    requires MoneyOk(w)
    ensures AddsExplained(w, DoRejectCampaign(true), Step(w, DoRejectCampaign(true)))
  {
    if w.campaign.status.UnderReview? {
      RejectionUnfolds(w);
      RefundIsExplained(w, Step(w, DoRejectCampaign(true)));
    }
  }

  lemma RefundIsExplained(w: World, w': World)
    requires MoneyOk(w) && w.campaign.status.UnderReview?
    requires var c := w.campaign;
             var (b, wallet) := GetOrCreate(w.books, ClientWallet, c.client);
             w'.books == Ledger.Post(b, RefundPosting(c.id, EscrowOf(w), wallet, c.price.value)).0
    requires w'.campaign.id == w.campaign.id
    ensures AddsExplained(w, DoRejectCampaign(true), w')
  {
    var c := w.campaign;
    var (b, wallet) := GetOrCreate(w.books, ClientWallet, c.client);
    OpeningKeepsMoney(w, ClientWallet, c.client);
    OutcomeTellsChange(b, RefundPosting(c.id, EscrowOf(w), wallet, c.price.value));
    FindAfterAppend(w.books.accounts, Account(ClientWallet, Some(c.client)), ClientWallet, Some(c.client));
  }

  lemma SettlementAdds(w: World, s: nat, verified: nat, key: Key, promoter: nat, settled: Pricing.Settlement)
    requires MoneyOk(w) && GoodSubmission(w.campaign, s) && w.campaign.escrow.Some?
    ensures var paid := PostSettlement(w, s, verified, key, promoter, settled);
            var revenue := FindAccount(w.books.accounts, RaliaRevenue, None);
            && paid.world.books.accounts == w.books.accounts
            && paid.world.books.log
               == w.books.log + (if paid.paidNow then [SettlePosting(s, w.campaign.escrow.value, promoter, revenue,
                                                                     settled.fee, settled.take, key)] else [])
  {
    var revenue := Platform(w.books, RaliaRevenue).value;
    OutcomeTellsChange(w.books, SettlePosting(s, w.campaign.escrow.value, promoter, revenue, settled.fee, settled.take,
                                              key));
  }

  /** The transaction a payment makes. */
  function PayoutOf(w: World, s: nat, verified: int, key: Key, settlement: Pricing.SettlementConfig): Posting
    requires GoodSubmission(w.campaign, s)
  {
    var post := JudgedPost(w.campaign, s);
    var promoter := w.campaign.assignments[w.campaign.submissions[s].assignment].promoter;
    var accounts := GetOrCreate(w.books, PromoterAvailable, promoter).0.accounts;
    var r := Pricing.SettleDelivery(post.gross, verified, post.promised, settlement);
    SettlePosting(s, EscrowOf(w), FindAccount(accounts, PromoterAvailable, Some(promoter)),
                  FindAccount(accounts, RaliaRevenue, None), if r.Ok? then r.value.fee else 0,
                  if r.Ok? then r.value.take else 0, key)
  }

  lemma PaymentAdds(w: World, s: nat, verified: int, key: Key, settlement: Pricing.SettlementConfig)
    requires MoneyOk(w) && RowsOk(w.campaign) && key.ClientKey?
    ensures var paid := PayForPost(w, s, verified, key, settlement);
            && w.books.accounts <= paid.world.books.accounts
            && (paid.paidNow ==>
                  && MayPay(w, s, verified, key, settlement) && OnAir(w.campaign)
                  && paid.world.books.accounts
                     == GetOrCreate(w.books, PromoterAvailable,
                                    w.campaign.assignments[w.campaign.submissions[s].assignment].promoter).0.accounts
                  && paid.world.books.log == w.books.log + [PayoutOf(w, s, verified, key, settlement)])
            && (!paid.paidNow ==> paid.world.books.log == w.books.log)
  {
    var c := w.campaign;
    PayUnfolds(w, s, verified, key, settlement);
    if MayPay(w, s, verified, key, settlement) {
      assert c.submissions != [];
      var post, promoter := JudgedPost(c, s), c.assignments[c.submissions[s].assignment].promoter;
      var (b, a) := GetOrCreate(w.books, PromoterAvailable, promoter);
      OpeningKeepsMoney(w, PromoterAvailable, promoter);
      GetOrCreateIsQuiet(w.books, PromoterAvailable, promoter);
      SettlementAdds(w.(books := b), s, verified, key, a,
                     Pricing.SettleDelivery(post.gross, verified, post.promised, settlement).value);
    }
  }

  /** What was settled by a payment that went through. */
  lemma PaidMeans(w: World, s: nat, verified: int, key: Key, settlement: Pricing.SettlementConfig)
    requires MoneyOk(w) && RowsOk(w.campaign) && key.ClientKey? && GoodSubmission(w.campaign, s)
    requires PayForPost(w, s, verified, key, settlement).paidNow
    ensures var post := JudgedPost(w.campaign, s);
            var r := Pricing.SettleDelivery(post.gross, verified, post.promised, settlement);
            && w.campaign.submissions[s].verdict == Undecided
            && r.Ok? && r.value.meetsThreshold && 0 < r.value.delivered == r.value.fee + r.value.take
  {
    PayMovesDelivered(w, s, verified, key, settlement);
  }

  lemma PayoutIsExplained(w: World, action: Action, accounts: seq<Account>, p: Posting)
    requires action.DoApprove? && GoodSubmission(w.campaign, action.submission)
    requires accounts == GetOrCreate(w.books, PromoterAvailable,
                                     w.campaign.assignments[w.campaign.submissions[action.submission].assignment]
                                     .promoter).0.accounts
    requires p == PayoutOf(w, action.submission, action.verified, action.key, action.terms.settlement)
    requires var post := JudgedPost(w.campaign, action.submission);
             var r := Pricing.SettleDelivery(post.gross, action.verified, post.promised, action.terms.settlement);
             && w.campaign.submissions[action.submission].verdict == Undecided
             && r.Ok? && r.value.meetsThreshold && 0 < r.value.delivered == r.value.fee + r.value.take
    ensures p.kind.SubmissionPayout? && IsPayout(w, action, p, accounts, EscrowOf(w))
  {
  }

  lemma DecisionAdds(w: World, reachPerPost: nat, w': World)
    requires MoneyOk(w) && w.campaign.status.Live? && EscrowOf(w) < |w.books.accounts|
    requires w' == Decide(w, EscrowOf(w), reachPerPost).0
    ensures w'.books.accounts == w.books.accounts && w.books.log <= w'.books.log <= w'.books.log
    ensures |w'.books.log| <= |w.books.log| + 1
    ensures |w'.books.log| == |w.books.log| + 1 ==>
              && w'.campaign.status.Fulfilled? && 0 < Balance(w.books, EscrowOf(w))
              && w'.books.log[|w.books.log|]
                 == RetainPosting(w.campaign.id, EscrowOf(w), FindAccount(w.books.accounts, RaliaRevenue, None),
                                  Balance(w.books, EscrowOf(w)))
  {
    var e := EscrowOf(w);
    if ReopenCount(w.campaign, Balance(w.books, e), reachPerPost) == 0
      && (ReachMet(w.campaign) || !WorkInFlight(w.campaign)) && !WorkInFlight(w.campaign) && 0 < Balance(w.books, e) {
      var revenue := Platform(w.books, RaliaRevenue).value;
      OutcomeTellsChange(w.books, RetainPosting(w.campaign.id, e, revenue, Balance(w.books, e)));
    }
  }

  lemma TwoAdded(w: World, mid: World, w': World, action: Action, p: Posting)
    requires mid.books.log == w.books.log + [p] && w.books.accounts <= mid.books.accounts == w'.books.accounts
    requires mid.books.log <= w'.books.log && |w'.books.log| <= |mid.books.log| + 1
    requires p.kind.SubmissionPayout? && IsPayout(w, action, p, w'.books.accounts, EscrowOf(w'))
    requires |mid.books.log| < |w'.books.log| ==>
               var q := w'.books.log[|mid.books.log|];
               q.kind.Adjustment? && IsRemainder(w, w', action, q, EscrowOf(w'))
    ensures AddsExplained(w, action, w')
  {
    assert w'.books.log[|w.books.log|] == mid.books.log[|w.books.log|] == p;
  }

  lemma RemainderIsExplained(w: World, mid: World, w': World, action: Action)
    requires action.DoApprove? && w.campaign.status.Live? && mid.campaign.status.Live? && MoneyOk(mid)
    requires mid.campaign.id == w.campaign.id && EscrowOf(mid) == EscrowOf(w) < |mid.books.accounts|
    requires w' == Decide(mid, EscrowOf(w), action.terms.reachPerPost).0
    ensures w'.books.accounts == mid.books.accounts && mid.books.log <= w'.books.log
    ensures |w'.books.log| <= |mid.books.log| + 1
    ensures |mid.books.log| < |w'.books.log| ==>
              var q := w'.books.log[|mid.books.log|];
              q.kind.Adjustment? && IsRemainder(w, w', action, q, EscrowOf(w))
  {
    DecisionAdds(mid, action.terms.reachPerPost, w');
  }

  /** The world after an approval that paid, and after the decision. */
  lemma PaidApprovalAdds(w: World, action: Action, paid: Payment, w': World)
    requires MoneyOk(w) && RowsOk(w.campaign) && OnAir(w.campaign) && action.DoApprove? && action.key.ClientKey?
    requires paid == PayForPost(w, action.submission, action.verified, action.key, action.terms.settlement)
    requires paid.paidNow && MoneyOk(paid.world) && EscrowOf(paid.world) == EscrowOf(w) < |paid.world.books.accounts|
    requires paid.world.campaign.id == w.campaign.id && paid.world.campaign.status == w.campaign.status
    requires w' == if w.campaign.status.Live? then Decide(paid.world, EscrowOf(w), action.terms.reachPerPost).0
                   else paid.world
    requires EscrowOf(w') == EscrowOf(w)
    ensures AddsExplained(w, action, w')
  {
    var p := PayoutAdded(w, action, paid);
    if w.campaign.status.Live? {
      RemainderIsExplained(w, paid.world, w', action);
    }
    TwoAdded(w, paid.world, w', action, p);
  }

  lemma PayoutAdded(w: World, action: Action, paid: Payment) returns (p: Posting)
    requires MoneyOk(w) && RowsOk(w.campaign) && action.DoApprove? && action.key.ClientKey? && paid.paidNow
    requires paid == PayForPost(w, action.submission, action.verified, action.key, action.terms.settlement)
    ensures paid.world.books.log == w.books.log + [p] && w.books.accounts <= paid.world.books.accounts
    ensures p.kind.SubmissionPayout? && IsPayout(w, action, p, paid.world.books.accounts, EscrowOf(w))
  {
    PaymentAdds(w, action.submission, action.verified, action.key, action.terms.settlement);
    PaidMeans(w, action.submission, action.verified, action.key, action.terms.settlement);
    p := PayoutOf(w, action.submission, action.verified, action.key, action.terms.settlement);
    PayoutIsExplained(w, action, paid.world.books.accounts, p);
  }

  lemma ApprovalStepAdds(w: World, action: Action)
    requires MoneyOk(w) && RowsOk(w.campaign) && action.DoApprove?
    ensures AddsExplained(w, action, Step(w, action))
  {
    StepIsHandler(w, action);
    if action.key.ClientKey? {
      var paid := PayForPost(w, action.submission, action.verified, action.key, action.terms.settlement);
      PaymentAdds(w, action.submission, action.verified, action.key, action.terms.settlement);
      if paid.paidNow {
        PaidApprovalStepAdds(w, action, paid);
      } else {
        UnpaidApprovalIs(w, action, paid);
      }
    }
  }

  lemma UnpaidApprovalIs(w: World, action: Action, paid: Payment)
    requires action.DoApprove? && action.key.ClientKey? && !paid.paidNow
    requires paid == PayForPost(w, action.submission, action.verified, action.key, action.terms.settlement)
    ensures Step(w, action) == paid.world
  {
    StepIsHandler(w, action);
  }

  lemma PaidApprovalStepAdds(w: World, action: Action, paid: Payment)
    requires MoneyOk(w) && RowsOk(w.campaign) && action.DoApprove? && action.key.ClientKey? && paid.paidNow
    requires paid == PayForPost(w, action.submission, action.verified, action.key, action.terms.settlement)
    requires OnAir(w.campaign)
    ensures AddsExplained(w, action, Step(w, action))
  {
    StepIsHandler(w, action);
    PaymentCosts(w, action.submission, action.verified, action.key, action.terms.settlement);
    MarkedHeader(w, action, paid);
    ApprovalIs(w, action, paid);
    if w.campaign.status.Live? {
      DecideKeepsMoney(paid.world, action.terms.reachPerPost);
    }
    PaidApprovalAdds(w, action, paid, Step(w, action));
  }

  lemma MarkedHeader(w: World, action: Action, paid: Payment)
    requires action.DoApprove? && paid.paidNow
    requires paid == PayForPost(w, action.submission, action.verified, action.key, action.terms.settlement)
    ensures paid.world.campaign.id == w.campaign.id && paid.world.campaign.status == w.campaign.status
  {
    PayShape(w, action.submission, action.verified, action.key, action.terms.settlement);
  }

  lemma ApprovalIs(w: World, action: Action, paid: Payment)
    requires MoneyOk(w) && action.DoApprove? && action.key.ClientKey? && paid.paidNow
    requires paid == PayForPost(w, action.submission, action.verified, action.key, action.terms.settlement)
    requires EscrowOf(w) < |w.books.accounts| && EscrowOf(w) < |paid.world.books.accounts|
    ensures Step(w, action) == if w.campaign.status.Live?
                               then Decide(paid.world, EscrowOf(w), action.terms.reachPerPost).0 else paid.world
  {
    StepIsHandler(w, action);
    PayShape(w, action.submission, action.verified, action.key, action.terms.settlement);
  }

  /** Whatever an action adds to the books, it explains what it puts on the escrow account. */
  lemma StepAddsExplained(w: World, action: Action)
    requires MoneyOk(w) && RowsOk(w.campaign)
    ensures AddsExplained(w, action, Step(w, action))
  {
    if IsFunding(action) {
      FundingStepAdds(w, action);
    } else if IsElsewhere(action) {
      ElsewhereStepAdds(w, action);
    } else if action == DoRejectCampaign(true) {
      RefundStepAdds(w);
    } else if action.DoApprove? {
      ApprovalStepAdds(w, action);
    } else {
      QuietStepAdds(w, action);
    }
  }

  // ---- On every run ----

  /** Action k of the run added transaction t, and is the reason for it. */
  ghost predicate StandsBehind(w: World, actions: seq<Action>, k: nat, t: nat, e: nat)
  {
    && k < |actions|
    && var (before, after) := (RunWorld(w, actions[..k]), RunWorld(w, actions[..k + 1]));
       && |before.books.log| <= t < |after.books.log|
       && Explains(before, actions[k], after, after.books.log[t], e)
  }

  ghost predicate Explained(w: World, actions: seq<Action>, t: nat, e: nat)
  {
    exists k: nat :: StandsBehind(w, actions, k, t, e)
  }

  lemma StillExplained(w: World, actions: seq<Action>, last: Action, t: nat, e: nat)
    requires Explained(w, actions, t, e)
    ensures Explained(w, actions + [last], t, e)
  {
    var k: nat :| StandsBehind(w, actions, k, t, e);
    var all := actions + [last];
    assert all[..k] == actions[..k] && all[..k + 1] == actions[..k + 1] && all[k] == actions[k];
    assert StandsBehind(w, all, k, t, e);
  }

  lemma NewlyExplained(w: World, actions: seq<Action>, last: Action, t: nat)
    requires MoneyOk(RunWorld(w, actions)) && RowsOk(RunWorld(w, actions).campaign)
    requires var (mid, end) := (RunWorld(w, actions), RunWorld(w, actions + [last]));
             && |mid.books.log| <= t < |end.books.log| && Touches(end.books.log[t].entries, EscrowOf(end))
    ensures Explained(w, actions + [last], t, EscrowOf(RunWorld(w, actions + [last])))
  {
    var all := actions + [last];
    assert all[..|actions|] == actions && all[..|actions| + 1] == all;
    StepAddsExplained(RunWorld(w, actions), last);
    assert StandsBehind(w, all, |actions|, t, EscrowOf(RunWorld(w, all)));
  }

  lemma IdStays(w: World, action: Action)
    requires MoneyOk(w)
    ensures Step(w, action).campaign.id == w.campaign.id
  {
    if IsBriefWork(action) {
      BriefLeavesMoney(w, action);
    } else if IsWork(action) {
      WorkKeepsHeader(w, action);
    } else if IsFunding(action) {
      FundingShape(w, action);
    } else if IsReview(action) {
      ReviewChangesStatus(w, action);
    } else if IsElsewhere(action) {
      ElsewhereStepRows(w, action);
    } else {
      ApprovalKeepsId(w, action);
    }
  }

  lemma ApprovalKeepsId(w: World, action: Action)
    requires MoneyOk(w) && action.DoApprove?
    ensures Step(w, action).campaign.id == w.campaign.id
  {
    StepIsHandler(w, action);
    var s, verified, key, terms := action.submission, action.verified, action.key, action.terms;
    var paid := PayForPost(w, s, verified, key, terms.settlement);
    PayShape(w, s, verified, key, terms.settlement);
    if paid.paidNow && w.campaign.status.Live? && w.campaign.escrow.Some?
      && w.campaign.escrow.value < |paid.world.books.accounts| {
      DecideKeepsId(paid.world, w.campaign.escrow.value, terms.reachPerPost);
    }
  }

  lemma DecideKeepsId(w: World, e: nat, reachPerPost: nat)
    requires e < |w.books.accounts|
    ensures Decide(w, e, reachPerPost).0.campaign.id == w.campaign.id
  {
    RetainLeavesRows(w.(campaign := w.campaign.(status := Fulfilled)), e);
  }

  /** The escrow account of mid is still that of end, or it was opened in between and nothing before is on it. */
  lemma EscrowStays(mid: World, end: World, t: nat)
    requires Sound(mid.books) && end.campaign.id == mid.campaign.id && mid.books.accounts <= end.books.accounts
    requires t < |mid.books.log| && Touches(mid.books.log[t].entries, EscrowOf(end))
    ensures EscrowOf(end) == EscrowOf(mid)
  {
    PrefixFinds(mid.books.accounts, end.books.accounts, CampaignEscrow, Some(mid.campaign.id));
    assert KnownAccounts(mid.books.accounts, mid.books.log[t].entries);
  }

  /** A transaction that was there before the step, on the account that is the escrow account after it. */
  lemma OlderTransaction(w: World, action: Action, t: nat)
    requires MoneyOk(w) && RowsOk(w.campaign) && t < |w.books.log| && t < |Step(w, action).books.log|
    requires Touches(Step(w, action).books.log[t].entries, EscrowOf(Step(w, action)))
    ensures EscrowOf(Step(w, action)) == EscrowOf(w) && Step(w, action).books.log[t] == w.books.log[t]
  {
    StepAddsExplained(w, action);
    IdStays(w, action);
    EscrowStays(w, Step(w, action), t);
  }

  lemma {:induction false} PrefixFinds(a: seq<Account>, b: seq<Account>, kind: AccountKind, owner: Option<nat>)
    requires a <= b
    ensures FindAccount(a, kind, owner) < |a| ==> FindAccount(b, kind, owner) == FindAccount(a, kind, owner)
    ensures FindAccount(a, kind, owner) == |a| ==> |a| <= FindAccount(b, kind, owner)
    decreases |a|
  {
    if a != [] {
      assert a[0] == b[0] && a[1..] <= b[1..];
      PrefixFinds(a[1..], b[1..], kind, owner);
    }
  }

  /**
   * On every run: each transaction on the campaign's escrow account has an action of the run behind it. Money arrives
   * only because the client paid exactly the price, and leaves only as the delivered share of an approved post, as the
   * refund of a campaign turned down, or as what is left of a campaign that is over.
   */
  lemma {:induction false} StatementOnEveryRun(w: World, actions: seq<Action>, t: nat)
    requires FreshStart(w) && t < |RunWorld(w, actions).books.log|
    requires Touches(RunWorld(w, actions).books.log[t].entries, EscrowOf(RunWorld(w, actions)))
    ensures Explained(w, actions, t, EscrowOf(RunWorld(w, actions)))
    decreases |actions|
  {
    FreshStartIsOk(w);
    assert actions != [];
    var front, last := actions[..|actions| - 1], actions[|actions| - 1];
    var mid := RunWorld(w, front);
    assert actions == front + [last];
    RunKeepsMoney(w, front);
    if t < |mid.books.log| {
      OlderTransaction(mid, last, t);
      StatementOnEveryRun(w, front, t);
      StillExplained(w, front, last, t, EscrowOf(mid));
    } else {
      NewlyExplained(w, front, last, t);
    }
  }
}
