/**
 * The other direction of solvency: on a campaign whose escrow does not cover what can still be claimed, there is always
 * a way to go on, by steps that are covered themselves, to an approval refused for lack of funds.
 */
module CampaignShortfall {
  import opened Common
  import opened Ledger
  import opened Delivery
  import opened Campaigns
  import opened CampaignRows
  import opened CampaignMoney
  import opened CampaignSolvency
  import opened CampaignRuns
  import opened CampaignSweep
  import opened CampaignTerms
  import opened CampaignLimits
  import Pricing

  // ---- Work can always go on ----

  /** Submission s is waiting to be judged for post p of assignment i. */
  predicate IsProofOf(c: Campaign, s: nat, i: nat, p: nat)
  {
    s < |c.submissions| && c.submissions[s].verdict.Undecided?
    && c.submissions[s].assignment == i && c.submissions[s].post == p
  }

  predicate ProofIsIn(c: Campaign, i: nat, p: nat)
  {
    exists s :: 0 <= s < |c.submissions| && IsProofOf(c, s, i, p)
  }

  predicate NothingOpen(a: Assignment)
  {
    forall p :: 0 <= p < |a.posts| ==> !Outstanding(a.posts[p].status)
  }

  predicate InReviewHaveProof(c: Campaign, i: nat)
    requires i < |c.assignments|
  {
    forall p :: 0 <= p < |c.assignments[i].posts| && c.assignments[i].posts[p].status.Submitted? ==> ProofIsIn(c, i, p)
  }

  /** A CANCELLED assignment has no post awaiting proof, and every post in review has a submission to be judged. */
  predicate WorkOk(c: Campaign)
  {
    forall i :: 0 <= i < |c.assignments| ==>
      (c.assignments[i].status.Cancelled? ==> NothingOpen(c.assignments[i])) && InReviewHaveProof(c, i)
  }

  lemma RolledUp(posts: seq<DeliverySlot>)
    ensures RollupOf(posts).Cancelled? ==> forall p :: 0 <= p < |posts| ==> !Outstanding(posts[p].status)
  {
    RollupReadsBack(Views(posts));
    if RollupOf(posts).Cancelled? {
      forall p | 0 <= p < |posts| ensures !Outstanding(posts[p].status) {
        assert Views(posts)[p].status == posts[p].status;
      }
    }
  }

  /** Post p of assignment a gets a new status and the submissions are brought up to date. */
  lemma SetPostKeepsWork(c: Campaign, a: nat, p: nat, status: PostStatus, c': Campaign)
    requires WorkOk(c) && a < |c.assignments| && p < |c.assignments[a].posts|
    requires c' == SetPost(c, a, p, status).(submissions := c'.submissions)
    requires status.Submitted? ==> ProofIsIn(c', a, p)
    requires forall s: nat, i: nat, q: nat :: IsProofOf(c, s, i, q) && !(i == a && q == p) ==> IsProofOf(c', s, i, q)
    ensures WorkOk(c')
  {
    RolledUp(c'.assignments[a].posts);
    forall i | 0 <= i < |c'.assignments| ensures InReviewHaveProof(c', i) {
      assert InReviewHaveProof(c, i);
      forall q | 0 <= q < |c'.assignments[i].posts| && c'.assignments[i].posts[q].status.Submitted?
        ensures ProofIsIn(c', i, q)
      {
        if !(i == a && q == p) {
          assert ProofIsIn(c, i, q);
          var s :| 0 <= s < |c.submissions| && IsProofOf(c, s, i, q);
          assert IsProofOf(c', s, i, q);
        }
      }
    }
  }

  lemma SubmitKeepsWork(w: World, assignment: nat, promoter: nat, named: Option<nat>)
    requires WorkOk(w.campaign)
    ensures WorkOk(Submit(w, assignment, promoter, named).0.campaign)
  {
    var c := w.campaign;
    var (w', reply) := Submit(w, assignment, promoter, named);
    if reply.Success? {
      var c', p := w'.campaign, GetOr(named, FirstOutstanding(c.assignments[assignment].posts));
      assert IsProofOf(c', |c.submissions|, assignment, p);
      SetPostKeepsWork(c, assignment, p, Submitted, c');
    }
  }

  lemma JudgedKeepsWork(c: Campaign, s: nat, status: PostStatus, c': Campaign)
    requires RowsOk(c) && WorkOk(c) && GoodSubmission(c, s) && c.submissions[s].verdict.Undecided?
    requires !status.Submitted? && |c'.submissions| == |c.submissions|
    requires c' == SetPost(c, c.submissions[s].assignment, c.submissions[s].post, status)
                   .(submissions := c.submissions[s := c'.submissions[s]])
    ensures WorkOk(c')
  {
    var a, p := c.submissions[s].assignment, c.submissions[s].post;
    SetPostKeepsWork(c, a, p, status, c');
  }

  lemma SweptKeepsWork(c: Campaign, now: int)
    requires WorkOk(c)
    ensures WorkOk(SweepUpTo(c, |c.assignments|, now))
  {
    var c' := SweepUpTo(c, |c.assignments|, now);
    SweepKeepsHeader(c, |c.assignments|, now);
    SweepIsPointwise(c, |c.assignments|, now);
    forall i | 0 <= i < |c'.assignments|
      ensures (c'.assignments[i].status.Cancelled? ==> NothingOpen(c'.assignments[i])) && InReviewHaveProof(c', i)
    {
      assert InReviewHaveProof(c, i);
      SweptOpen(c.assignments[i], now);
      SweptInReview(c.assignments[i], now);
      forall p | 0 <= p < |c'.assignments[i].posts| && c'.assignments[i].posts[p].status.Submitted?
        ensures ProofIsIn(c', i, p)
      {
        assert ProofIsIn(c, i, p);
        var s :| 0 <= s < |c.submissions| && IsProofOf(c, s, i, p);
        assert IsProofOf(c', s, i, p);
      }
    }
  }

  lemma SweptOpen(a: Assignment, now: int)
    requires a.status.Cancelled? ==> NothingOpen(a)
    ensures Swept(a, now).status.Cancelled? ==> NothingOpen(Swept(a, now))
  {
    RolledUp(FlipPosts(a.posts, now));
  }

  lemma SweptInReview(a: Assignment, now: int)
    ensures |Swept(a, now).posts| == |a.posts|
    ensures forall p :: 0 <= p < |a.posts| && Swept(a, now).posts[p].status.Submitted? ==> a.posts[p].status.Submitted?
  {
  }

  lemma OldProofsStay(c: Campaign, c': Campaign, i: nat)
    requires WorkOk(c) && i < |c.assignments| <= |c'.assignments| && c'.assignments[i] == c.assignments[i]
    requires c'.submissions == c.submissions
    ensures InReviewHaveProof(c', i)
  {
    assert InReviewHaveProof(c, i);
    forall p | 0 <= p < |c'.assignments[i].posts| && c'.assignments[i].posts[p].status.Submitted?
      ensures ProofIsIn(c', i, p)
    {
      assert ProofIsIn(c, i, p);
      var s :| 0 <= s < |c.submissions| && IsProofOf(c, s, i, p);
      assert IsProofOf(c', s, i, p);
    }
  }

  /** Work that stays exactly as it was. */
  lemma SameWorkIsOk(c: Campaign, c': Campaign)
    requires WorkOk(c) && c'.assignments == c.assignments && c'.submissions == c.submissions
    ensures WorkOk(c')
  {
    forall i | 0 <= i < |c'.assignments| ensures InReviewHaveProof(c', i) {
      OldProofsStay(c, c', i);
    }
  }

  lemma AcceptKeepsWork(w: World, offer: nat, promoter: nat, clock: Clock)
    requires RowsOk(w.campaign) && WorkOk(w.campaign)
    ensures WorkOk(Accept(w, offer, promoter, clock).0.campaign)
  {
    var c := w.campaign;
    var (w', reply) := Accept(w, offer, promoter, clock);
    if reply.Success? {
      var c', k := w'.campaign, FirstOpen(c.slots);
      NewPostsOk(c, c.offers[offer], c.slots[k].posts, clock);
      forall i | 0 <= i < |c'.assignments|
        ensures (c'.assignments[i].status.Cancelled? ==> NothingOpen(c'.assignments[i])) && InReviewHaveProof(c', i)
      {
        if i < |c.assignments| {
          OldProofsStay(c, c', i);
        }
      }
    }
  }

  lemma DecisionLeavesProofs(w: World, e: nat, reachPerPost: nat)
    requires e < |w.books.accounts|
    ensures var c' := Decide(w, e, reachPerPost).0.campaign;
            c'.assignments == w.campaign.assignments && c'.submissions == w.campaign.submissions
  {
    if 0 < ReopenCount(w.campaign, Balance(w.books, e), reachPerPost) {
      DecideReopens(w, e, reachPerPost);
    } else {
      DecideFinishes(w, e, reachPerPost);
    }
  }

  lemma ApproveKeepsWork(w: World, s: nat, verified: int, key: Key, terms: ApprovalTerms)
    requires RowsOk(w.campaign) && WorkOk(w.campaign)
    ensures WorkOk(ApproveSubmission(w, s, verified, key, terms).0.campaign)
  {
    var c, paid := w.campaign, PayForPost(w, s, verified, key, terms.settlement);
    PayShape(w, s, verified, key, terms.settlement);
    if paid.paidNow {
      JudgedKeepsWork(c, s, Approved, paid.world.campaign);
      if c.status.Live? && c.escrow.Some? && c.escrow.value < |paid.world.books.accounts| {
        DecisionLeavesProofs(paid.world, c.escrow.value, terms.reachPerPost);
        SameWorkIsOk(paid.world.campaign, Decide(paid.world, c.escrow.value, terms.reachPerPost).0.campaign);
      }
    }
  }

  lemma ProofKeepsWork(w: World, action: Action)
    requires RowsOk(w.campaign) && WorkOk(w.campaign) && IsProofWork(action)
    ensures WorkOk(Step(w, action).campaign)
  {
    StepIsHandler(w, action);
    match action
    case DoSubmit(assignment, promoter, named) => SubmitKeepsWork(w, assignment, promoter, named);
    case DoReject(s) =>
      if GoodSubmission(w.campaign, s) && w.campaign.submissions[s].verdict.Undecided? {
        JudgedKeepsWork(w.campaign, s, Rejected, RejectSubmission(w, s).0.campaign);
      }
    case DoSweep(now) => SweptKeepsWork(w.campaign, now);
  }

  lemma OnAirKeepsWork(w: World, action: Action)
    requires RowsOk(w.campaign) && WorkOk(w.campaign) && OnAir(w.campaign)
    ensures WorkOk(Step(w, action).campaign)
  {
    if IsProofWork(action) {
      ProofKeepsWork(w, action);
    } else if action.DoAccept? {
      StepIsHandler(w, action);
      AcceptKeepsWork(w, action.offer, action.promoter, action.clock);
    } else if action.DoApprove? {
      StepIsHandler(w, action);
      ApproveKeepsWork(w, action.submission, action.verified, action.key, action.terms);
    } else if IsWork(action) {
      OnlyOffersChange(w, action);
      SameWorkIsOk(w.campaign, Step(w, action).campaign);
    } else {
      DeskStepsKeepLive(w, action);
    }
  }

  lemma OffAirHasNoWork(w: World, action: Action)
    requires RowsOk(w.campaign) && !OnAir(w.campaign)
    ensures Step(w, action).campaign.assignments == []
  {
    if IsDeskWork(action) {
      DeskOnlyHeader(w, action);
    } else if action.DoApprove? {
      QuietApproval(w, action);
    } else {
      QuietWork(w, action);
    }
  }

  lemma StepKeepsWork(w: World, action: Action)
    requires RowsOk(w.campaign) && WorkOk(w.campaign)
    ensures WorkOk(Step(w, action).campaign)
  {
    if OnAir(w.campaign) {
      OnAirKeepsWork(w, action);
    } else {
      OffAirHasNoWork(w, action);
    }
  }

  /** On every run work can go on: nothing waits for proof that cannot be handed in, nor is judged without a proof. */
  lemma {:induction false} WorkOnEveryRun(w: World, actions: seq<Action>)
    requires FreshStart(w)
    ensures WorkOk(RunWorld(w, actions).campaign)
    decreases |actions|
  {
    if actions != [] {
      WorkOnEveryRun(w, actions[..|actions| - 1]);
      FreshStartIsOk(w);
      RunKeepsRows(w, actions[..|actions| - 1]);
      StepKeepsWork(RunWorld(w, actions[..|actions| - 1]), actions[|actions| - 1]);
    }
  }

  // ---- What can still be claimed ----

  function ClaimOne(p: DeliverySlot): int { if !Resolved(p.status) && 0 < p.promised then 1 else 0 }

  /** The posts of an assignment its own promoter can still be paid for. */
  function Claims(a: Assignment): int { Sum(ClaimOne, a.posts) }

  /** The posts that can still be paid without taking a slot from anybody. */
  function Claimable(c: Campaign): int
  {
    (if c.status.Live? then Sum(OpenPosts, c.slots) else 0) + Sum(Claims, c.assignments)
  }

  function MissedPost(p: DeliverySlot): int { if p.status.Missed? then 1 else 0 }

  function WorthlessPost(p: DeliverySlot): int { if !Resolved(p.status) && p.promised == 0 then 1 else 0 }

  /**
   * Posts of an assignment that count as exposed but cannot be claimed as things stand: the missed ones beside work
   * still going on, which only a pull would hand to somebody else, and those of an offer that promised no reach.
   */
  function Unclaimed(a: Assignment): int
  {
    Sum(WorthlessPost, a.posts)
    + (if a.slot.Some? && !AllResolved(Views(a.posts)) then Sum(MissedPost, a.posts) else 0)
  }

  /** The same over the campaign; once it is fulfilled, its open slots are closed to everybody. */
  function Unclaimable(c: Campaign): int
  {
    (if c.status.Live? then 0 else Sum(OpenPosts, c.slots)) + Sum(Unclaimed, c.assignments)
  }

  lemma {:induction false} PostsSplit(posts: seq<DeliverySlot>)
    ensures Sum(UnresolvedOne, Views(posts)) == Sum(ClaimOne, posts) + Sum(WorthlessPost, posts)
    ensures |posts| == Sum(ApprovedOne, Views(posts)) + Sum(MissedPost, posts) + Sum(UnresolvedOne, Views(posts))
    ensures 0 <= Sum(ClaimOne, posts) && 0 <= Sum(WorthlessPost, posts) && 0 <= Sum(MissedPost, posts)
    ensures AllResolved(Views(posts)) ==> Sum(UnresolvedOne, Views(posts)) == 0
    decreases |posts|
  {
    if posts != [] {
      var front, last := posts[..|posts| - 1], posts[|posts| - 1];
      PostsSplit(front);
      assert Views(posts)[..|posts| - 1] == Views(front);
      assert Views(posts)[|posts| - 1].status == last.status;
      assert AllResolved(Views(posts)) ==> AllResolved(Views(front));
    }
  }

  lemma OwedSplits(a: Assignment)
    ensures Owed(a) == Claims(a) + Unclaimed(a) && 0 <= Claims(a) && 0 <= Unclaimed(a)
  {
    PostsSplit(a.posts);
    DeficitIsSum(a.posts);
  }

  /** The exposure is what can be claimed and what cannot. */
  lemma ExposureSplits(c: Campaign)
    ensures Exposure(c) == Claimable(c) + Unclaimable(c)
  {
    forall i | 0 <= i < |c.assignments|
      ensures Owed(c.assignments[i]) == Claims(c.assignments[i]) + Unclaimed(c.assignments[i])
    {
      OwedSplits(c.assignments[i]);
    }
    SumSplits(Owed, Claims, Unclaimed, c.assignments);
  }

  // ---- The way to a refusal ----

  /** The last step is an approval, refused for lack of funds. */
  predicate EndsShort(w: World, more: seq<Action>)
  {
    more != [] && var last := more[|more| - 1];
    last.DoApprove? && last.key.ClientKey? && !Blank(last.key)
    && Respond(RunWorld(w, more[..|more| - 1]), last).1 == LedgerRefused(InsufficientFunds)
  }

  /** Escrow does not cover what can be claimed of a campaign on air. */
  ghost predicate Pressed(w: World)
  {
    && MoneyOk(w) && RowsOk(w.campaign) && WorkOk(w.campaign) && OnAir(w.campaign)
    && EscrowOf(w) < |w.books.accounts|
    && Balance(w.books, EscrowOf(w)) < UnitOf(w.campaign) * Claimable(w.campaign)
  }

  lemma {:induction false} RunFirst(w: World, a: Action, rest: seq<Action>)
    ensures RunWorld(w, [a] + rest) == RunWorld(Step(w, a), rest)
    decreases |rest|
  {
    if rest == [] {
      assert [a] + rest == [a] && [a][..0] == [] && RunWorld(w, []) == w;
    } else {
      var front, last := rest[..|rest| - 1], rest[|rest| - 1];
      assert ([a] + rest)[..|rest|] == [a] + front && ([a] + rest)[|rest|] == last;
      RunFirst(w, a, front);
    }
  }

  /** Covered steps that lead to such a refusal. */
  ghost predicate RunsShort(w: World, more: seq<Action>)
  {
    EndsShort(w, more) && CoveredRun(w, more[..|more| - 1])
  }

  lemma StepFirst(w: World, a: Action, rest: seq<Action>)
    requires Covered(w, a) && RunsShort(Step(w, a), rest)
    ensures RunsShort(w, [a] + rest)
  {
    var all, n := [a] + rest, |rest|;
    assert all[..n] == [a] + rest[..n - 1] && all[n] == rest[n - 1];
    RunFirst(w, a, rest[..n - 1]);
    forall k | 0 <= k < n ensures Covered(RunWorld(w, all[..n][..k]), all[..n][k]) {
      CoveredBehind(w, a, rest, k);
    }
  }

  lemma CoveredBehind(w: World, a: Action, rest: seq<Action>, k: nat)
    requires k < |rest| && Covered(w, a) && CoveredRun(Step(w, a), rest[..|rest| - 1])
    ensures var all := ([a] + rest)[..|rest|]; Covered(RunWorld(w, all[..k]), all[k])
  {
    var all, front := ([a] + rest)[..|rest|], rest[..|rest| - 1];
    if k == 0 {
      assert all[..0] == [] && RunWorld(w, []) == w;
    } else {
      assert all[..k] == [a] + front[..k - 1] && all[k] == front[k - 1];
      RunFirst(w, a, front[..k - 1]);
      assert Covered(RunWorld(Step(w, a), front[..k - 1]), front[k - 1]);
    }
  }

  // ---- How much is left to do ----

  function EffortOne(p: DeliverySlot): int
  {
    if Outstanding(p.status) then 2 else if p.status.Submitted? then 1 else 0
  }

  function EffortOf(a: Assignment): int { Sum(EffortOne, a.posts) }

  /** Accepting a slot, handing in a post and approving one each leave less. */
  function Effort(c: Campaign): int
  {
    (if c.status.Live? then 3 * Sum(OpenPosts, c.slots) else 0) + Sum(EffortOf, c.assignments)
  }

  lemma EffortIsNonNegative(c: Campaign)
    ensures 0 <= Effort(c)
  {
    forall i | 0 <= i < |c.assignments| ensures 0 <= EffortOf(c.assignments[i]) {
      SumNonNegative(EffortOne, c.assignments[i].posts);
    }
    SumNonNegative(EffortOf, c.assignments);
    SumNonNegative(OpenPosts, c.slots);
  }

  // ---- Taking an open slot ----

  function FreshPromoter(offers: seq<Offer>): (p: nat)
    ensures forall i :: 0 <= i < |offers| ==> offers[i].promoter < p
  {
    if offers == [] then 0 else Max(FreshPromoter(offers[..|offers| - 1]), offers[|offers| - 1].promoter + 1)
  }

  const OFFERED_NOW := Clock(0, 0, 0)

  function TermsFor(p: nat): OfferTerms { OfferTerms(0, 1, 0, {p}) }

  predicate HasOpen(c: Campaign) { FirstOpen(c.slots) < |c.slots| }

  lemma OfferStep(w: World, p: nat)
    requires w.campaign.status.Live? && w.campaign.slots != [] && !AlreadyOffered(w.campaign, p)
    ensures var c := w.campaign;
            Step(w, DoSendOffers([p], TermsFor(p)))
            == w.(campaign := c.(offers := c.offers + [NewOffer(c, p, TermsFor(p))]))
  {
    var c := w.campaign;
    var c' := c.(offers := c.offers + [NewOffer(c, p, TermsFor(p))]);
    assert [p][1..] == [];
    assert OfferEach(c', [], TermsFor(p)) == (c', Success);
  }

  lemma AllClaimed(a: Assignment)
    requires forall p :: 0 <= p < |a.posts| ==> a.posts[p].status.Pending? && 0 < a.posts[p].promised
    ensures Claims(a) == |a.posts|
  {
    SumConstant(ClaimOne, a.posts, 1);
  }

  /** Taking the first open slot on an offer that promises something moves its posts from the slot to the promoter. */
  lemma AcceptStep(w: World, offer: nat, promoter: nat)
    requires RowsOk(w.campaign) && w.campaign.status.Live? && HasOpen(w.campaign) && offer < |w.campaign.offers|
    requires var o := w.campaign.offers[offer];
             o.promoter == promoter && o.status.Sent? && o.expiresAt == 0 && 0 < o.promised
    ensures var c' := Step(w, DoAccept(offer, promoter, OFFERED_NOW)).campaign;
            && Step(w, DoAccept(offer, promoter, OFFERED_NOW)).books == w.books
            && c'.id == w.campaign.id && c'.status.Live?
            && UnitOf(c') == UnitOf(w.campaign) && Claimable(c') == Claimable(w.campaign)
            && Effort(c') < Effort(w.campaign)
  {
    var c, k := w.campaign, FirstOpen(w.campaign.slots);
    StepIsHandler(w, DoAccept(offer, promoter, OFFERED_NOW));
    var c' := Step(w, DoAccept(offer, promoter, OFFERED_NOW)).campaign;
    var a := c'.assignments[|c.assignments|];
    NewPostsOk(c, c.offers[offer], c.slots[k].posts, OFFERED_NOW);
    AllClaimed(a);
    SumUpdate(OpenPosts, c.slots, k, c'.slots[k]);
    SumSnoc(Claims, c.assignments, a);
    SumConstant(EffortOne, a.posts, 2);
    SumSnoc(EffortOf, c.assignments, a);
  }

  // ---- Handing in a post ----

  /** Changing the status of one post. */
  lemma SetPostSums(c: Campaign, i: nat, p: nat, status: PostStatus)
    requires i < |c.assignments| && p < |c.assignments[i].posts|
    ensures var c', post := SetPost(c, i, p, status), c.assignments[i].posts[p];
            && Claimable(c') == Claimable(c) - ClaimOne(post) + ClaimOne(post.(status := status))
            && Effort(c') == Effort(c) - EffortOne(post) + EffortOne(post.(status := status))
  {
    var c', a := SetPost(c, i, p, status), c.assignments[i];
    var post := a.posts[p].(status := status);
    SumUpdate(ClaimOne, a.posts, p, post);
    SumUpdate(EffortOne, a.posts, p, post);
    SumUpdate(Claims, c.assignments, i, c'.assignments[i]);
    SumUpdate(EffortOf, c.assignments, i, c'.assignments[i]);
  }

  lemma SubmissionsAside(c: Campaign, subs: seq<Submission>)
    ensures Claimable(c.(submissions := subs)) == Claimable(c) && Effort(c.(submissions := subs)) == Effort(c)
  {
  }

  /** Handing in a post moves no money and leaves every claim. */
  lemma SubmitStep(w: World, i: nat, p: nat)
    requires WorkOk(w.campaign) && i < |w.campaign.assignments| && p < |w.campaign.assignments[i].posts|
    requires Outstanding(w.campaign.assignments[i].posts[p].status)
    ensures var w' := Step(w, DoSubmit(i, w.campaign.assignments[i].promoter, Some(p)));
            && w'.books == w.books && w'.campaign.id == w.campaign.id && w'.campaign.status == w.campaign.status
            && UnitOf(w'.campaign) == UnitOf(w.campaign) && Claimable(w'.campaign) == Claimable(w.campaign)
            && Effort(w'.campaign) < Effort(w.campaign)
  {
    var c, promoter := w.campaign, w.campaign.assignments[i].promoter;
    assert c.assignments[i].status.Cancelled? ==> NothingOpen(c.assignments[i]);
    StepIsHandler(w, DoSubmit(i, promoter, Some(p)));
    SetPostSums(c, i, p, Submitted);
    SubmissionsAside(SetPost(c, i, p, Submitted), c.submissions + [Submission(i, p, Undecided, 0)]);
  }

  // ---- Approving a post ----

  /** Every claim waits in review. */
  predicate AllInReview(c: Campaign)
  {
    && !(c.status.Live? && HasOpen(c))
    && forall i :: 0 <= i < |c.assignments| ==> ClaimsInReview(c.assignments[i])
  }

  predicate ClaimsInReview(a: Assignment)
  {
    forall p :: 0 <= p < |a.posts| && Outstanding(a.posts[p].status) ==> a.posts[p].promised == 0
  }

  lemma {:induction false} SomePositive<T>(f: T -> int, s: seq<T>) returns (i: nat)
    requires 0 < Sum(f, s)
    ensures i < |s| && 0 < f(s[i])
    decreases |s|
  {
    if 0 < f(s[|s| - 1]) {
      i := |s| - 1;
    } else {
      i := SomePositive(f, s[..|s| - 1]);
    }
  }

  lemma NoOpenPosts(c: Campaign)
    requires RowsOk(c) && !HasOpen(c)
    ensures Sum(OpenPosts, c.slots) == 0
  {
    SumConstant(OpenPosts, c.slots, 0);
  }

  /** A claim that waits in review, and the submission it waits with. */
  lemma ClaimInReview(c: Campaign) returns (s: nat)
    requires RowsOk(c) && WorkOk(c) && AllInReview(c) && 0 < Claimable(c)
    ensures GoodSubmission(c, s) && c.submissions[s].verdict.Undecided? && 0 < JudgedPost(c, s).promised
    ensures WorkInFlight(c)
  {
    if c.status.Live? {
      NoOpenPosts(c);
    }
    var i := SomePositive(Claims, c.assignments);
    var p := SomePositive(ClaimOne, c.assignments[i].posts);
    assert ClaimsInReview(c.assignments[i]) && InReviewHaveProof(c, i);
    assert c.assignments[i].posts[p].status.Submitted?;
    assert ProofIsIn(c, i, p);
    s :| 0 <= s < |c.submissions| && IsProofOf(c, s, i, p);
    assert PostsInFlight(c.assignments[i].posts);
  }

  function LongestKey(log: seq<Posting>): (n: nat)
    ensures forall i :: 0 <= i < |log| && log[i].key.ClientKey? ==> |log[i].key.uuid| <= n
  {
    if log == [] then 0
    else
      var key := log[|log| - 1].key;
      Max(LongestKey(log[..|log| - 1]), if key.ClientKey? then |key.uuid| else 0)
  }

  /** A key nobody has used. */
  function FreshKey(log: seq<Posting>): (key: Key)
    ensures key.ClientKey? && !Blank(key) && !Has(log, key)
  {
    var uuid := seq(LongestKey(log) + 1, i => 'k');
    assert |uuid| == LongestKey(log) + 1;
    ClientKey(uuid)
  }

  const IN_FULL := ApprovalTerms(Pricing.SettlementConfig(0, 0), 0)

  lemma UnitsLeft(unit: nat, claims: int, balance: int)
    requires 0 <= balance < unit * claims
    ensures 0 < unit && 0 < claims
    ensures unit <= balance ==> balance - unit < unit * (claims - 1) && 0 < claims - 1
  {
    if claims <= 0 {
      ScaledLess(unit, claims, 0);
    }
    assert unit * (claims - 1) == unit * claims - unit;
    if claims == 1 {
      assert unit * claims == unit;
    }
  }

  /** A claim in review delivered in full is paid a whole unit, or refused because escrow does not hold one. */
  lemma ClaimIsJudged(w: World, s: nat, key: Key)
    requires MoneyOk(w) && RowsOk(w.campaign) && OnAir(w.campaign) && 0 < UnitOf(w.campaign)
    requires GoodSubmission(w.campaign, s) && w.campaign.submissions[s].verdict.Undecided?
    requires 0 < JudgedPost(w.campaign, s).promised && EscrowOf(w) < |w.books.accounts|
    requires key.ClientKey? && !Blank(key) && !Has(w.books.log, key)
    ensures var paid := PayForPost(w, s, JudgedPost(w.campaign, s).promised, key, IN_FULL.settlement);
            if UnitOf(w.campaign) <= Balance(w.books, EscrowOf(w)) then
              paid.paidNow && PaidOut(w, paid.world, UnitOf(w.campaign))
              && paid.world.campaign == MarkApproved(w.campaign, s, JudgedPost(w.campaign, s).promised)
            else !paid.paidNow && paid.reply == LedgerRefused(InsufficientFunds)
  {
    var c, post := w.campaign, JudgedPost(w.campaign, s);
    assert AssignmentOk(c, c.assignments[c.submissions[s].assignment]);
    Pricing.WholeIsDelivered(post.gross, post.promised, post.promised);
    PayUnfolds(w, s, post.promised, key, IN_FULL.settlement);
    var settled := Pricing.SettleDelivery(post.gross, post.promised, post.promised, IN_FULL.settlement).value;
    var (b, a) := GetOrCreate(w.books, PromoterAvailable, c.assignments[c.submissions[s].assignment].promoter);
    OpeningKeepsMoney(w, PromoterAvailable, c.assignments[c.submissions[s].assignment].promoter);
    Pricing.FeeWithinPrice(settled.delivered, 0);
    SettlementPosted(w.(books := b), s, post.promised, key, a, settled);
  }

  /** The decision after an approval that leaves work in flight moves no money and opens no slot. */
  lemma DecisionWaits(w: World, e: nat, reachPerPost: nat)
    requires e < |w.books.accounts| && WorkInFlight(w.campaign)
    ensures var w' := Decide(w, e, reachPerPost).0;
            w' == w.(campaign := w.campaign.(status := w'.campaign.status))
            && (w'.campaign.status == w.campaign.status || w'.campaign.status.Fulfilled?)
  {
  }

  /** Marking the post of a claim in review. */
  lemma MarkedClaim(c: Campaign, s: nat, verified: nat)
    requires RowsOk(c) && GoodSubmission(c, s) && c.submissions[s].verdict.Undecided?
    requires 0 < JudgedPost(c, s).promised
    ensures var c' := MarkApproved(c, s, verified);
            && Claimable(c') == Claimable(c) - 1 && Effort(c') == Effort(c) - 1
            && (AllInReview(c) ==> AllInReview(c'))
  {
    var i, p, c' := c.submissions[s].assignment, c.submissions[s].post, MarkApproved(c, s, verified);
    assert SubmissionOk(c, c.submissions[s]);
    SetPostSums(c, i, p, Approved);
    SubmissionsAside(SetPost(c, i, p, Approved), c'.submissions);
    if AllInReview(c) {
      forall k | 0 <= k < |c'.assignments| ensures ClaimsInReview(c'.assignments[k]) {
        assert ClaimsInReview(c.assignments[k]);
      }
    }
  }

  lemma StatusAside(c: Campaign, status: CampaignStatus)
    requires RowsOk(c) && AllInReview(c) && OnAir(c) && (status == c.status || status.Fulfilled?)
    ensures var c' := c.(status := status);
            Claimable(c') == Claimable(c) && Effort(c') == Effort(c) && UnitOf(c') == UnitOf(c)
  {
    if c.status.Live? {
      NoOpenPosts(c);
    }
  }

  function InFull(w: World, s: nat): Action
    requires GoodSubmission(w.campaign, s)
  {
    DoApprove(s, JudgedPost(w.campaign, s).promised, FreshKey(w.books.log), IN_FULL)
  }

  /** From w to w' one claim has been paid a whole unit, and the campaign is still pressed. */
  ghost predicate OneClaimLess(w: World, w': World) { Pressed(w') && Effort(w'.campaign) < Effort(w.campaign) }

  /** An approval that leaves work in flight asks nothing of escrow. */
  lemma WaitingIsCovered(w: World, s: nat)
    requires GoodSubmission(w.campaign, s)
    requires WorkInFlight(MarkApproved(w.campaign, s, JudgedPost(w.campaign, s).promised))
    ensures Covered(w, InFull(w, s))
  {
  }

  lemma ApproveShape(w: World, s: nat, paid: Payment)
    requires MoneyOk(w) && OnAir(w.campaign) && GoodSubmission(w.campaign, s)
    requires paid == PayForPost(w, s, JudgedPost(w.campaign, s).promised, FreshKey(w.books.log), IN_FULL.settlement)
    requires paid.paidNow && EscrowOf(w) < |w.books.accounts| && EscrowOf(w) < |paid.world.books.accounts|
    ensures Step(w, InFull(w, s))
            == if w.campaign.status.Live? then Decide(paid.world, EscrowOf(w), 0).0 else paid.world
  {
    StepIsHandler(w, InFull(w, s));
    ApprovalSplits(w, s, JudgedPost(w.campaign, s).promised, FreshKey(w.books.log), IN_FULL, paid);
  }

  /** Where the campaign stands once the claim has been paid. */
  lemma AfterClaim(w: World, s: nat, paid: Payment, w': World)
    requires Pressed(w) && AllInReview(w.campaign)
    requires GoodSubmission(w.campaign, s) && w.campaign.submissions[s].verdict.Undecided?
    requires 0 < JudgedPost(w.campaign, s).promised && UnitOf(w.campaign) <= Balance(w.books, EscrowOf(w))
    requires paid.paidNow && PaidOut(w, paid.world, UnitOf(w.campaign))
    requires paid.world.campaign == MarkApproved(w.campaign, s, JudgedPost(w.campaign, s).promised)
    requires RowsOk(paid.world.campaign) && WorkOk(paid.world.campaign)
    requires UnitOf(paid.world.campaign) == UnitOf(w.campaign)
    requires w' == if w.campaign.status.Live? then Decide(paid.world, EscrowOf(w), 0).0 else paid.world
    ensures WorkInFlight(paid.world.campaign)
    ensures w'.books == paid.world.books && EscrowOf(w') == EscrowOf(w) && Effort(w'.campaign) < Effort(w.campaign)
    ensures Balance(w'.books, EscrowOf(w)) < UnitOf(w'.campaign) * Claimable(w'.campaign) && OnAir(w'.campaign)
  {
    var mid := paid.world;
    EscrowIsNonNegative(w);
    UnitsLeft(UnitOf(w.campaign), Claimable(w.campaign), Balance(w.books, EscrowOf(w)));
    MarkedClaim(w.campaign, s, JudgedPost(w.campaign, s).promised);
    var left := ClaimInReview(mid.campaign);
    if w.campaign.status.Live? {
      DecisionWaits(mid, EscrowOf(w), 0);
      StatusAside(mid.campaign, w'.campaign.status);
    }
  }

  /** An approval of a claim in review: refused, or one claim less on a campaign still pressed. */
  lemma ApproveStep(w: World, s: nat)
    requires Pressed(w) && AllInReview(w.campaign)
    requires GoodSubmission(w.campaign, s) && w.campaign.submissions[s].verdict.Undecided?
    requires 0 < JudgedPost(w.campaign, s).promised
    ensures if UnitOf(w.campaign) <= Balance(w.books, EscrowOf(w)) then
              Covered(w, InFull(w, s)) && OneClaimLess(w, Step(w, InFull(w, s)))
            else Respond(w, InFull(w, s)).1 == LedgerRefused(InsufficientFunds)
  {
    var verified, key := JudgedPost(w.campaign, s).promised, FreshKey(w.books.log);
    var paid, w' := PayForPost(w, s, verified, key, IN_FULL.settlement), Step(w, InFull(w, s));
    EscrowIsNonNegative(w);
    UnitsLeft(UnitOf(w.campaign), Claimable(w.campaign), Balance(w.books, EscrowOf(w)));
    ClaimIsJudged(w, s, key);
    if paid.paidNow {
      PayKeepsRows(w, s, verified, key, IN_FULL.settlement);
      JudgedKeepsWork(w.campaign, s, Approved, paid.world.campaign);
      MarkedExposure(w.campaign, s, verified);
      ApproveShape(w, s, paid);
      AfterClaim(w, s, paid, w');
      WaitingIsCovered(w, s);
      StepKeepsMoney(w, InFull(w, s));
      StepKeepsRows(w, InFull(w, s));
      StepKeepsWork(w, InFull(w, s));
    }
  }

  /** A step that moves no money and no claim leaves the campaign pressed. */
  lemma StaysPressed(w: World, action: Action)
    requires Pressed(w)
    requires var w' := Step(w, action);
             && w'.books == w.books && w'.campaign.id == w.campaign.id && OnAir(w'.campaign)
             && UnitOf(w'.campaign) == UnitOf(w.campaign) && Claimable(w'.campaign) == Claimable(w.campaign)
    ensures Pressed(Step(w, action))
  {
    StepKeepsMoney(w, action);
    StepKeepsRows(w, action);
    StepKeepsWork(w, action);
  }

  lemma OfferAndAccept(w: World, p: nat)
    requires Pressed(w) && w.campaign.status.Live? && HasOpen(w.campaign) && p == FreshPromoter(w.campaign.offers)
    ensures var w1 := Step(w, DoSendOffers([p], TermsFor(p)));
            var w2 := Step(w1, DoAccept(|w.campaign.offers|, p, OFFERED_NOW));
            Pressed(w2) && Effort(w2.campaign) < Effort(w.campaign)
  {
    var offer, send := |w.campaign.offers|, DoSendOffers([p], TermsFor(p));
    OfferStep(w, p);
    var w1 := Step(w, send);
    StaysPressed(w, send);
    AcceptStep(w1, offer, p);
    StaysPressed(w1, DoAccept(offer, p, OFFERED_NOW));
  }

  /**
   * Whatever cannot be paid can be asked for: from a campaign whose escrow does not cover what can be claimed, covered
   * steps lead to an approval refused for lack of funds. Every open slot is taken, every post handed in, and the proofs
   * are approved one by one.
   */
  lemma {:induction false} PressedRunsShort(w: World) returns (more: seq<Action>)
    requires Pressed(w)
    ensures RunsShort(w, more)
    decreases Effort(w.campaign)
  {
    var c := w.campaign;
    EffortIsNonNegative(c);
    if c.status.Live? && HasOpen(c) {
      var p := FreshPromoter(c.offers);
      var send, accept := DoSendOffers([p], TermsFor(p)), DoAccept(|c.offers|, p, OFFERED_NOW);
      OfferAndAccept(w, p);
      EffortIsNonNegative(Step(Step(w, send), accept).campaign);
      var rest := PressedRunsShort(Step(Step(w, send), accept));
      StepFirst(Step(w, send), accept, rest);
      StepFirst(w, send, [accept] + rest);
      more := [send] + ([accept] + rest);
    } else if i :| 0 <= i < |c.assignments| && !ClaimsInReview(c.assignments[i]) {
      var p :| 0 <= p < |c.assignments[i].posts| && Outstanding(c.assignments[i].posts[p].status);
      var submit := DoSubmit(i, c.assignments[i].promoter, Some(p));
      SubmitStep(w, i, p);
      StaysPressed(w, submit);
      EffortIsNonNegative(Step(w, submit).campaign);
      var rest := PressedRunsShort(Step(w, submit));
      StepFirst(w, submit, rest);
      more := [submit] + rest;
    } else {
      more := ReviewRunsShort(w);
    }
  }

  lemma {:induction false} ReviewRunsShort(w: World) returns (more: seq<Action>)
    requires Pressed(w) && AllInReview(w.campaign)
    ensures RunsShort(w, more)
    decreases Effort(w.campaign), 0
  {
    EscrowIsNonNegative(w);
    UnitsLeft(UnitOf(w.campaign), Claimable(w.campaign), Balance(w.books, EscrowOf(w)));
    var s := ClaimInReview(w.campaign);
    var approve := InFull(w, s);
    ApproveStep(w, s);
    if UnitOf(w.campaign) <= Balance(w.books, EscrowOf(w)) {
      EffortIsNonNegative(Step(w, approve).campaign);
      EffortIsNonNegative(w.campaign);
      var rest := PressedRunsShort(Step(w, approve));
      StepFirst(w, approve, rest);
      more := [approve] + rest;
    } else {
      more := [approve];
      assert more[..0] == [] && RunWorld(w, []) == w;
    }
  }

  // ---- Exactly ----

  lemma {:induction false} StaysSolvent(w: World, more: seq<Action>)
    requires Solvent(w) && CoveredRun(w, more)
    ensures Solvent(RunWorld(w, more))
    decreases |more|
  {
    if more != [] {
      var front, last := more[..|more| - 1], more[|more| - 1];
      assert forall k :: 0 <= k < |front| ==> front[..k] == more[..k] && front[k] == more[k];
      StaysSolvent(w, front);
      var mid := RunWorld(w, front);
      StepIsBackedExactly(mid, last);
      StepKeepsMoney(mid, last);
      StepKeepsRows(mid, last);
      StepKeepsQuoteFits(mid, last);
    }
  }

  /** While escrow covers the exposure, covered steps never lead to a refusal. */
  lemma SolventNeverRunsShort(w: World, more: seq<Action>)
    requires Solvent(w)
    ensures !RunsShort(w, more)
  {
    if more != [] && CoveredRun(w, more[..|more| - 1]) {
      StaysSolvent(w, more[..|more| - 1]);
      ApprovalIsFunded(RunWorld(w, more[..|more| - 1]), more[|more| - 1]);
    }
  }

  lemma ApprovalIsFunded(w: World, last: Action)
    requires Solvent(w)
    ensures last.DoApprove? && last.key.ClientKey? && !Blank(last.key) ==>
              Respond(w, last).1 != LedgerRefused(InsufficientFunds)
  {
    if last.DoApprove? && last.key.ClientKey? && !Blank(last.key) {
      NeverShort(w, last.submission, last.verified, last.key, last.terms);
    }
  }

  /** No covered steps lead to an approval refused for lack of funds. */
  ghost predicate NeverRunsShort(w: World)
  {
    forall more: seq<Action> :: !RunsShort(w, more)
  }

  lemma BackedNeverRunsShort(w: World)
    requires Solvent(w)
    ensures NeverRunsShort(w)
  {
    forall more: seq<Action> ensures !RunsShort(w, more) {
      SolventNeverRunsShort(w, more);
    }
  }

  lemma PressedSometimesRunsShort(w: World)
    requires Pressed(w)
    ensures !NeverRunsShort(w)
  {
    var more := PressedRunsShort(w);
    assert RunsShort(w, more);
  }

  lemma SoundOnEveryRun(w: World, actions: seq<Action>)
    requires FreshStart(w) && OnAir(RunWorld(w, actions).campaign)
    ensures var end := RunWorld(w, actions);
            && EscrowOf(end) < |end.books.accounts| && (Backed(end) ==> Solvent(end))
            && (Pressed(end)
                <==> Balance(end.books, EscrowOf(end)) < UnitOf(end.campaign) * Claimable(end.campaign))
  {
    RunIsSound(w, actions);
    WorkOnEveryRun(w, actions);
  }

  lemma NothingLost(w: World)
    requires OnAir(w.campaign) && EscrowOf(w) < |w.books.accounts| && Unclaimable(w.campaign) == 0
    ensures Backed(w) <==> UnitOf(w.campaign) * Claimable(w.campaign) <= Balance(w.books, EscrowOf(w))
  {
    ExposureSplits(w.campaign);
  }

  /**
   * On every run, on air: where escrow covers the exposure nothing covered leads to a refusal; where it does not even
   * cover what can be claimed, something covered does; and the two meet where nothing exposed is beyond claiming.
   */
  lemma BackedExactly(w: World, actions: seq<Action>)
    requires FreshStart(w) && OnAir(RunWorld(w, actions).campaign)
    ensures var end := RunWorld(w, actions);
            && EscrowOf(end) < |end.books.accounts|
            && (Backed(end) ==> NeverRunsShort(end))
            && (Balance(end.books, EscrowOf(end)) < UnitOf(end.campaign) * Claimable(end.campaign) ==>
                  !NeverRunsShort(end))
            && (Unclaimable(end.campaign) == 0 ==> (Backed(end) <==> NeverRunsShort(end)))
  {
    var end := RunWorld(w, actions);
    SoundOnEveryRun(w, actions);
    if Unclaimable(end.campaign) == 0 {
      NothingLost(end);
    }
    if Backed(end) {
      BackedNeverRunsShort(end);
    }
    if Pressed(end) {
      PressedSometimesRunsShort(end);
    }
  }
}
