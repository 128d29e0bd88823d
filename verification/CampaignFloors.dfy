/**
 * How many posts a promoter's slot carries, against how many the campaign asks for: the offer screen shows a floor for
 * the second, while the promoter delivers the first.
 */
module CampaignFloors {
  import opened Common
  import opened Ledger
  import opened Delivery
  import opened Campaigns
  import opened CampaignRows
  import opened CampaignMoney
  import opened CampaignSolvency
  import opened CampaignRuns
  import opened CampaignSweep
  import opened CampaignTerms
  import Pricing

  /** No slot carries more posts than the campaign asks for, and whoever holds a slot has exactly its posts. */
  predicate PostsFit(c: Campaign)
  {
    && (forall k :: 0 <= k < |c.slots| ==> c.slots[k].posts <= c.posts)
    && forall i :: 0 <= i < |c.assignments| ==>
         && |c.assignments[i].posts| <= c.posts
         && (c.assignments[i].slot.Some? && c.assignments[i].slot.value < |c.slots| ==>
               |c.assignments[i].posts| == c.slots[c.assignments[i].slot.value].posts)
  }

  /** Every slot, and every promoter, has all the posts the campaign asks for. */
  predicate Whole(c: Campaign)
  {
    && (forall k :: 0 <= k < |c.slots| ==> c.slots[k].posts == c.posts)
    && forall i :: 0 <= i < |c.assignments| ==> |c.assignments[i].posts| == c.posts
  }

  /** The sweep takes the slot of a promoter some of whose posts are approved. */
  predicate PullsPartWay(c: Campaign, now: int, i: nat)
  {
    i < |c.assignments| && c.assignments[i].slot.Some? && WillBePulled(c.assignments[i], now)
    && Deficit(c.assignments[i].posts) < |c.assignments[i].posts|
  }

  predicate Shrinks(c: Campaign, action: Action)
  {
    action.DoSweep? && exists i :: 0 <= i < |c.assignments| && PullsPartWay(c, action.now, i)
  }

  // ---- Steps that leave the slots of the promoters alone ----

  /** From c to c' promoters keep their slots and their posts in number, and new slots carry all posts. */
  predicate SameShares(c: Campaign, c': Campaign)
  {
    && c'.posts == c.posts && |c'.assignments| == |c.assignments| && c.slots <= c'.slots
    && (forall k :: |c.slots| <= k < |c'.slots| ==> c'.slots[k].posts == c.posts)
    && forall i :: 0 <= i < |c.assignments| ==>
         c'.assignments[i].slot == c.assignments[i].slot && |c'.assignments[i].posts| == |c.assignments[i].posts|
  }

  predicate SlotsExist(c: Campaign)
  {
    forall i :: 0 <= i < |c.assignments| && c.assignments[i].slot.Some? ==> c.assignments[i].slot.value < |c.slots|
  }

  lemma RowsHaveSlots(c: Campaign)
    requires RowsOk(c)
    ensures SlotsExist(c)
  {
    forall i | 0 <= i < |c.assignments| && c.assignments[i].slot.Some?
      ensures c.assignments[i].slot.value < |c.slots|
    {
      assert AssignmentOk(c, c.assignments[i]);
    }
  }

  lemma SameSharesKeep(c: Campaign, c': Campaign)
    requires SameShares(c, c') && SlotsExist(c)
    ensures PostsFit(c) ==> PostsFit(c')
    ensures Whole(c) <==> Whole(c')
  {
    assert forall k :: 0 <= k < |c.slots| ==> c'.slots[k] == c.slots[k];
  }

  lemma SetPostShares(c: Campaign, a: nat, p: nat, status: PostStatus, subs: seq<Submission>)
    requires a < |c.assignments| && p < |c.assignments[a].posts|
    ensures SameShares(c, SetPost(c, a, p, status).(submissions := subs))
  {
  }

  lemma ProofShares(w: World, action: Action)
    requires action.DoSubmit? || action.DoReject?
    ensures SameShares(w.campaign, Step(w, action).campaign)
  {
    StepIsHandler(w, action);
    var c, c' := w.campaign, Step(w, action).campaign;
    if c' != c {
      if action.DoSubmit? {
        var p := GetOr(action.named, FirstOutstanding(c.assignments[action.assignment].posts));
        SetPostShares(c, action.assignment, p, Submitted, c'.submissions);
      } else {
        var s := c.submissions[action.submission];
        SetPostShares(c, s.assignment, s.post, Rejected, c'.submissions);
      }
    }
  }

  lemma DecisionShares(w: World, e: nat, reachPerPost: nat)
    requires e < |w.books.accounts|
    ensures SameShares(w.campaign, Decide(w, e, reachPerPost).0.campaign)
  {
    if 0 < ReopenCount(w.campaign, Balance(w.books, e), reachPerPost) {
      DecideReopens(w, e, reachPerPost);
    } else {
      DecideFinishes(w, e, reachPerPost);
    }
  }

  lemma SharesCompose(c: Campaign, x: Campaign, c': Campaign)
    requires SameShares(c, x) && SameShares(x, c')
    ensures SameShares(c, c')
  {
  }

  lemma ApprovalShares(w: World, s: nat, verified: int, key: Key, terms: ApprovalTerms)
    ensures SameShares(w.campaign, ApproveSubmission(w, s, verified, key, terms).0.campaign)
  {
    var c, paid := w.campaign, PayForPost(w, s, verified, key, terms.settlement);
    PayShape(w, s, verified, key, terms.settlement);
    if paid.paidNow {
      SetPostShares(c, c.submissions[s].assignment, c.submissions[s].post, Approved, paid.world.campaign.submissions);
      if c.status.Live? && c.escrow.Some? && c.escrow.value < |paid.world.books.accounts| {
        DecisionShares(paid.world, c.escrow.value, terms.reachPerPost);
        SharesCompose(c, paid.world.campaign, Decide(paid.world, c.escrow.value, terms.reachPerPost).0.campaign);
      }
    }
  }

  /** Any step on air but an acceptance and a sweep. */
  lemma PlainShares(w: World, action: Action)
    requires OnAir(w.campaign) && !action.DoAccept? && !action.DoSweep?
    ensures SameShares(w.campaign, Step(w, action).campaign)
  {
    StepIsHandler(w, action);
    if action.DoSubmit? || action.DoReject? {
      ProofShares(w, action);
    } else if action.DoApprove? {
      ApprovalShares(w, action.submission, action.verified, action.key, action.terms);
    } else if action.DoSendOffers? || action.DoDecline? || action.DoExpire? {
      OnlyOffersChange(w, action);
    } else {
      DeskStepsKeepLive(w, action);
    }
  }

  // ---- An acceptance ----

  lemma AcceptedShares(w: World, offer: nat, promoter: nat, clock: Clock)
    requires RowsOk(w.campaign)
    ensures var c' := Accept(w, offer, promoter, clock).0.campaign;
            (PostsFit(w.campaign) ==> PostsFit(c')) && (Whole(w.campaign) ==> Whole(c'))
  {
    var c := w.campaign;
    var (w', reply) := Accept(w, offer, promoter, clock);
    if reply.Success? {
      var k := FirstOpen(c.slots);
      var c', a := w'.campaign, w'.campaign.assignments[|c.assignments|];
      NewPostsOk(c, c.offers[offer], c.slots[k].posts, clock);
      RowsHaveSlots(c);
      forall j | 0 <= j < |c.slots| ensures c'.slots[j].posts == c.slots[j].posts {}
      forall i | 0 <= i < |c.assignments| ensures c'.assignments[i] == c.assignments[i] {}
    }
  }

  // ---- A sweep ----

  lemma SweptOneFits(c: Campaign, i: nat, now: int)
    requires RowsOk(c) && PostsFit(c) && i < |c.assignments|
    ensures PostsFit(SweepOne(c, i, now))
  {
    var a, c' := c.assignments[i], SweepOne(c, i, now);
    assert AssignmentOk(c, a);
    RowsHaveSlots(c);
    SweepOneKeepsHeader(c, i, now);
    SweepOneSparesSubmitted(c, i, now);
    SweepOneSwept(c, i, now);
    forall k | 0 <= k < |c.slots| ensures |c'.slots| == |c.slots| && c'.slots[k].posts <= c.posts {
      SweepOneSlot(c, i, now, k);
      DeficitFits(a.posts);
    }
    forall j | 0 <= j < |c.assignments| && c'.assignments[j].slot.Some?
      ensures c'.assignments[j].slot == c.assignments[j].slot
              && c'.slots[c.assignments[j].slot.value].posts == c.slots[c.assignments[j].slot.value].posts
    {
      SweepOneSlot(c, i, now, c.assignments[j].slot.value);
    }
  }

  lemma DeficitFits(posts: seq<DeliverySlot>)
    ensures 0 <= Deficit(posts) <= |posts|
  {
    DeficitIsSum(posts);
    SumNonNegative(ApprovedOne, Views(posts));
    SumOfBits(ApprovedOne, Views(posts));
  }

  lemma SweptFits(c: Campaign, now: int)
    requires RowsOk(c) && PostsFit(c)
    ensures PostsFit(SweepUpTo(c, |c.assignments|, now))
  {
    var n := |c.assignments|;
    forall x: Campaign, i: nat | i < n && |x.assignments| == n && RowsOk(x) && PostsFit(x)
      ensures RowsOk(SweepOne(x, i, now)) && PostsFit(SweepOne(x, i, now))
    {
      SweptOneFits(x, i, now);
      SweepOneKeepsRows(x, i, now);
    }
    SweepInduction(c, n, now, (x: Campaign, i: nat) => RowsOk(x) && PostsFit(x));
  }

  /** What a sweep leaves of slot k, when every promoter has all the posts. */
  lemma SweptSlotIsWhole(w: World, now: int, k: nat)
    requires RowsOk(w.campaign) && Whole(w.campaign) && k < |w.campaign.slots|
    requires forall i :: 0 <= i < |w.campaign.assignments| ==> !PullsPartWay(w.campaign, now, i)
    ensures k < |Sweep(w, now).campaign.slots| && Sweep(w, now).campaign.slots[k].posts == w.campaign.posts
  {
    var c := w.campaign;
    SweepReopensPulled(w, now, k);
    if i :| 0 <= i < |c.assignments| && Loses(c, i, now, k) {
      assert !PullsPartWay(c, now, i);
      DeficitFits(c.assignments[i].posts);
    }
  }

  lemma PulledSlotIsShort(w: World, now: int, i: nat)
    requires RowsOk(w.campaign) && Whole(w.campaign) && PullsPartWay(w.campaign, now, i)
    ensures !Whole(Sweep(w, now).campaign)
  {
    var c, k := w.campaign, w.campaign.assignments[i].slot.value;
    RowsHaveSlots(c);
    SweepReopensPulled(w, now, k);
    assert Loses(c, i, now, k);
    DeficitFits(c.assignments[i].posts);
    SweepKeepsHeader(c, |c.assignments|, now);
    assert Sweep(w, now).campaign.slots[k].posts < c.posts;
  }

  lemma SweptIsWhole(w: World, now: int)
    requires RowsOk(w.campaign) && Whole(w.campaign)
    ensures Whole(Sweep(w, now).campaign) <==> !Shrinks(w.campaign, DoSweep(now))
  {
    var c, c' := w.campaign, Sweep(w, now).campaign;
    if i :| 0 <= i < |c.assignments| && PullsPartWay(c, now, i) {
      PulledSlotIsShort(w, now, i);
    } else {
      SweepKeepsHeader(c, |c.assignments|, now);
      SweepOnlyStatuses(c, now);
      forall k | 0 <= k < |c'.slots| ensures c'.slots[k].posts == c.posts {
        SweptSlotIsWhole(w, now, k);
      }
      forall i | 0 <= i < |c'.assignments| ensures |c'.assignments[i].posts| == c.posts {
        assert SamePosts(c.assignments[i], c'.assignments[i]);
      }
    }
  }

  // ---- Every step, every run ----

  lemma StepKeepsPostsFit(w: World, action: Action)
    requires RowsOk(w.campaign) && OnAir(w.campaign) && PostsFit(w.campaign)
    ensures PostsFit(Step(w, action).campaign)
  {
    StepIsHandler(w, action);
    if action.DoAccept? {
      AcceptedShares(w, action.offer, action.promoter, action.clock);
    } else if action.DoSweep? {
      SweptFits(w.campaign, action.now);
    } else {
      PlainShares(w, action);
      RowsHaveSlots(w.campaign);
      SameSharesKeep(w.campaign, Step(w, action).campaign);
    }
  }

  /** Exactly a sweep that pulls a promoter part way ends up with a slot of fewer posts than the campaign asks for. */
  lemma StepStaysWhole(w: World, action: Action)
    requires RowsOk(w.campaign) && OnAir(w.campaign) && Whole(w.campaign)
    ensures Whole(Step(w, action).campaign) <==> !Shrinks(w.campaign, action)
  {
    StepIsHandler(w, action);
    if action.DoAccept? {
      AcceptedShares(w, action.offer, action.promoter, action.clock);
    } else if action.DoSweep? {
      SweptIsWhole(w, action.now);
    } else {
      PlainShares(w, action);
      RowsHaveSlots(w.campaign);
      SameSharesKeep(w.campaign, Step(w, action).campaign);
    }
  }

  /** Going on air takes nothing from a slot. */
  lemma GoingOnAir(w: World, action: Action)
    requires RowsOk(w.campaign) && !OnAir(w.campaign) && OnAir(Step(w, action).campaign)
    ensures Whole(Step(w, action).campaign) && PostsFit(Step(w, action).campaign)
    ensures !Shrinks(w.campaign, action)
  {
    if IsBriefWork(action) {
      BriefKeepsOff(w, action);
    } else if IsFunding(action) {
      FundingShape(w, action);
    } else if IsReview(action) {
      ReviewChangesStatus(w, action);
    } else if IsElsewhere(action) {
      ElsewhereStepRows(w, action);
    } else if action.DoApprove? {
      QuietApproval(w, action);
    } else {
      QuietWork(w, action);
    }
  }

  lemma BriefKeepsOff(w: World, action: Action)
    requires !OnAir(w.campaign) && IsBriefWork(action)
    ensures !OnAir(Step(w, action).campaign)
  {
  }

  /**
   * On every run, while the campaign is on air: no slot carries more posts than asked, and every promoter who holds one
   * has exactly its posts.
   */
  lemma {:induction false} PostsFitOnEveryRun(w: World, actions: seq<Action>)
    requires FreshStart(w)
    ensures OnAir(RunWorld(w, actions).campaign) ==> PostsFit(RunWorld(w, actions).campaign)
    decreases |actions|
  {
    FreshStartIsOk(w);
    if actions != [] {
      var front, last := actions[..|actions| - 1], actions[|actions| - 1];
      RunKeepsRows(w, front);
      PostsFitOnEveryRun(w, front);
      if OnAir(RunWorld(w, front).campaign) {
        StepKeepsPostsFit(RunWorld(w, front), last);
      } else if OnAir(RunWorld(w, actions).campaign) {
        GoingOnAir(RunWorld(w, front), last);
      }
    }
  }

  /** No step of the run pulls a promoter part way. */
  ghost predicate NeverShrinks(w: World, actions: seq<Action>)
  {
    forall k :: 0 <= k < |actions| ==> !Shrinks(RunWorld(w, actions[..k]).campaign, actions[k])
  }

  ghost predicate AlwaysWhole(w: World, actions: seq<Action>)
  {
    forall k :: 0 <= k <= |actions| ==>
      (OnAir(RunWorld(w, actions[..k]).campaign) ==> Whole(RunWorld(w, actions[..k]).campaign))
  }

  lemma NothingToPull(w: World, action: Action)
    requires RowsOk(w.campaign) && !OnAir(w.campaign)
    ensures !Shrinks(w.campaign, action)
  {
  }

  lemma PrefixShape(w: World, actions: seq<Action>, k: nat)
    requires k < |actions|
    ensures RunWorld(w, actions[..k + 1]) == Step(RunWorld(w, actions[..k]), actions[k])
  {
    assert actions[..k + 1][..k] == actions[..k];
  }

  lemma {:induction false} WholeUpTo(w: World, actions: seq<Action>, k: nat)
    requires FreshStart(w) && NeverShrinks(w, actions) && k <= |actions|
    ensures OnAir(RunWorld(w, actions[..k]).campaign) ==> Whole(RunWorld(w, actions[..k]).campaign)
  {
    FreshStartIsOk(w);
    if k > 0 {
      WholeUpTo(w, actions, k - 1);
      PrefixShape(w, actions, k - 1);
      RunKeepsRows(w, actions[..k - 1]);
      var mid := RunWorld(w, actions[..k - 1]);
      if OnAir(mid.campaign) {
        StepStaysWhole(mid, actions[k - 1]);
      } else if OnAir(RunWorld(w, actions[..k]).campaign) {
        GoingOnAir(mid, actions[k - 1]);
      }
    }
  }

  lemma WholeDoesNotShrink(w: World, actions: seq<Action>, k: nat)
    requires FreshStart(w) && AlwaysWhole(w, actions) && k < |actions|
    ensures !Shrinks(RunWorld(w, actions[..k]).campaign, actions[k])
  {
    var mid := RunWorld(w, actions[..k]);
    FreshStartIsOk(w);
    RunKeepsRows(w, actions[..k]);
    PrefixShape(w, actions, k);
    if OnAir(mid.campaign) {
      OnAirStep(mid, actions[k]);
      assert Whole(mid.campaign) && Whole(RunWorld(w, actions[..k + 1]).campaign);
      StepStaysWhole(mid, actions[k]);
    } else {
      NothingToPull(mid, actions[k]);
    }
  }

  /** Every slot carries all the posts asked for, all along a run, if and only if no step pulls a promoter part way. */
  lemma RunIsWholeExactly(w: World, actions: seq<Action>)
    requires FreshStart(w)
    ensures AlwaysWhole(w, actions) <==> NeverShrinks(w, actions)
  {
    if NeverShrinks(w, actions) {
      forall k | 0 <= k <= |actions|
        ensures OnAir(RunWorld(w, actions[..k]).campaign) ==> Whole(RunWorld(w, actions[..k]).campaign)
      {
        WholeUpTo(w, actions, k);
      }
    }
    if AlwaysWhole(w, actions) {
      forall k | 0 <= k < |actions| ensures !Shrinks(RunWorld(w, actions[..k]).campaign, actions[k]) {
        WholeDoesNotShrink(w, actions, k);
      }
    }
  }

  // ---- The floor a promoter was shown ----

  /** The floor the screen shows for an offer, once the threshold is known. */
  function ShownFloor(c: Campaign, o: Offer, threshold: Pricing.Percent): nat
  {
    Pricing.AdvertisedFloor(o.fee, c.posts, threshold)
  }

  /** What assignment a pays its promoter, with so much reach verified for each of its posts. */
  function PayOf(c: Campaign, a: Assignment, verified: seq<nat>, config: Pricing.SettlementConfig): nat
    requires a.offer < |c.offers| && 0 < c.offers[a.offer].promised
  {
    Pricing.TotalPay(UnitOf(c), verified, c.offers[a.offer].promised, config)
  }

  /**
   * The shortfall is rounding, at most 3/2 kobo a post, and, where the slot carries fewer posts than asked, one kobo
   * more and the floor of the missing posts.
   */
  predicate NearFloor(c: Campaign, a: Assignment, verified: seq<nat>, config: Pricing.SettlementConfig)
    requires a.offer < |c.offers| && 0 < c.offers[a.offer].promised && |a.posts| <= c.posts
  {
    var o := c.offers[a.offer];
    var missing := c.posts - |a.posts|;
    2 * (ShownFloor(c, o, config.threshold) - PayOf(c, a, verified, config))
    <= 3 * |a.posts| + (if missing == 0 then 0 else 2 * Pricing.AdvertisedFloor(o.fee, missing, config.threshold) + 2)
  }

  /** The post count and the offer of an assignment, and every way to deliver its posts settled at the offer's rate. */
  predicate FloorStands(c: Campaign, a: Assignment, takeRate: Pricing.Percent, threshold: Pricing.Percent,
                        verified: seq<nat>)
    requires a.offer < |c.offers| && |a.posts| <= c.posts
  {
    var o, config := c.offers[a.offer], Pricing.SettlementConfig(takeRate, threshold);
    0 < o.promised && Pricing.AllMayBeApproved(UnitOf(c), verified, o.promised, config) ==>
      NearFloor(c, a, verified, config)
  }

  lemma FloorOfOffer(c: Campaign, a: Assignment, takeRate: Pricing.Percent, threshold: Pricing.Percent,
                     verified: seq<nat>)
    requires a.offer < |c.offers| && |verified| == |a.posts| <= c.posts
    requires c.offers[a.offer].fee == Pricing.SplitFee(UnitOf(c), takeRate).fee
    ensures FloorStands(c, a, takeRate, threshold, verified)
  {
    var o, config := c.offers[a.offer], Pricing.SettlementConfig(takeRate, threshold);
    if 0 < o.promised && Pricing.AllMayBeApproved(UnitOf(c), verified, o.promised, config) {
      Pricing.ManyPostsNearFloor(UnitOf(c), o.promised, verified, config);
      Pricing.ShortSlotNearFloor(UnitOf(c), o.promised, verified, c.posts, config);
    }
  }

  /** On every run an assignment has an offer and no more posts than the campaign asks for. */
  lemma AssignmentFits(w: World, actions: seq<Action>, i: nat)
    requires FreshStart(w) && i < |RunWorld(w, actions).campaign.assignments|
    ensures var c := RunWorld(w, actions).campaign;
            c.assignments[i].offer < |c.offers| && |c.assignments[i].posts| <= c.posts
  {
    var c := RunWorld(w, actions).campaign;
    FreshStartIsOk(w);
    RunKeepsRows(w, actions);
    assert AssignmentOk(c, c.assignments[i]);
    PostsFitOnEveryRun(w, actions);
  }

  /**
   * On every run, the posts of any promoter, each delivered well enough to be approved and settled at the take rate the
   * offer was made at, pay that near to the floor the promoter was shown at the same threshold.
   */
  lemma FloorOnEveryRun(w: World, actions: seq<Action>, i: nat, verified: seq<nat>, threshold: Pricing.Percent)
    requires FreshStart(w) && i < |RunWorld(w, actions).campaign.assignments|
    requires |verified| == |RunWorld(w, actions).campaign.assignments[i].posts|
    ensures var c := RunWorld(w, actions).campaign;
            var a := c.assignments[i];
            && a.offer < |c.offers| && |a.posts| <= c.posts
            && exists j: nat :: SentAt(w, actions, a.offer, j)
                                && FloorStands(c, a, actions[j].offerTerms.takeRate, threshold, verified)
  {
    var c := RunWorld(w, actions).campaign;
    var a := c.assignments[i];
    AssignmentFits(w, actions, i);
    OfferHasItsBatch(w, actions, a.offer);
    var j: nat :| SentAt(w, actions, a.offer, j);
    FloorOfOffer(c, a, actions[j].offerTerms.takeRate, threshold, verified);
  }
}
